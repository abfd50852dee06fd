/**
 * The geometry record a sub-window of the MDI area saves and restores
 * (VoreenMdiSubWindow::saveGeometry / restoreGeometry), and the part of a
 * sub-window's state that record changes.
 *
 * The byte stream is modelled as its length plus the field values that
 * reading it in order yields; Qt's byte encoding of each field is not.
 */
module Geometry {
  import opened Wrappers

  type uint8 = x: int | 0 <= x < 0x100
  type uint16 = x: int | 0 <= x < 0x1_0000
  type uint32 = x: int | 0 <= x < 0x1_0000_0000

  const MagicNumber: uint32 := 0x1234FFFF
  const MajorVersion: uint16 := 1
  const MinorVersion: uint16 := 0
  /** Qt::WindowMaximized: saveGeometry stores `windowState() & Qt::WindowMaximized` as its last byte. */
  const WindowMaximizedBit: uint8 := 0x02
  /** The room left above a defaulted normal rectangle for the title bar. */
  const FrameHeight := 20
  /** Bytes saveGeometry writes in the Qt 4.0 stream format: 4 + 2 + 2 + 16 + 16 + 1. */
  const EncodedLength := 41
  /** restoreGeometry refuses anything shorter than the magic number. */
  const MinimumLength := 4

  datatype Point = Point(x: int, y: int)
  datatype Size = Size(width: int, height: int)

  /** A QRect, kept as its inclusive corners (x1, y1) and (x2, y2). */
  datatype Rect = Rect(left: int, top: int, right: int, bottom: int) {
    predicate IsValid() { left <= right && top <= bottom }
    function TopLeft(): Point { Point(left, top) }
    function Extent(): Size { Size(right - left + 1, bottom - top + 1) }
  }

  /** QRect(QPoint, QSize): the rectangle with that corner and extent. */
  function RectAt(p: Point, s: Size): (r: Rect)
    ensures r.TopLeft() == p && r.Extent() == s
    ensures r.IsValid() <==> s.width >= 1 && s.height >= 1
  {
    Rect(p.x, p.y, p.x + s.width - 1, p.y + s.height - 1)
  }

  /** The values a geometry stream yields when its fields are read in order. */
  datatype GeometryFields = GeometryFields(
    magic: uint32, major: uint16, minor: uint16,
    frame: Rect, normal: Rect, maximized: uint8)

  /** A saved geometry: the byte array's length and what reading it yields. */
  datatype GeometryBlob = GeometryBlob(byteLength: nat, fields: GeometryFields)

  /** An empty byte array, which is what a missing setting reads as. */
  const EmptyBlob := GeometryBlob(0, GeometryFields(0, 0, 0, Rect(0, 0, 0, 0), Rect(0, 0, 0, 0), 0))

  /** saveGeometry: magic, version 1.0, frame rectangle, normal rectangle, maximized bit. */
  function EncodeGeometry(frame: Rect, normal: Rect, maximized: bool): (b: GeometryBlob)
    ensures b.byteLength == EncodedLength
    ensures b.fields.magic == MagicNumber && b.fields.major == MajorVersion && b.fields.minor == MinorVersion
    ensures b.fields.frame == frame && b.fields.normal == normal
    ensures b.fields.maximized != 0 <==> maximized
  {
    GeometryBlob(EncodedLength,
      GeometryFields(MagicNumber, MajorVersion, MinorVersion, frame, normal,
                     if maximized then WindowMaximizedBit else 0))
  }

  /** What restoreGeometry goes on to apply once the header checks pass. */
  datatype RestoredGeometry = RestoredGeometry(frame: Rect, normal: Rect, maximized: bool)

  /**
   * The checks and defaults of restoreGeometry: refused when shorter than
   * four bytes, with a foreign magic number or with another major version
   * (any minor version passes); an invalid frame rectangle becomes the size
   * hint at (0, 0), an invalid normal rectangle the size hint at (0, 20).
   */
  function DecodeGeometry(blob: GeometryBlob, hint: Size): (r: Option<RestoredGeometry>)
    ensures r.None? <==>
      blob.byteLength < MinimumLength || blob.fields.magic != MagicNumber || blob.fields.major != MajorVersion
    ensures r.Some? ==> r.value.maximized == (blob.fields.maximized != 0)
    ensures r.Some? ==>
      r.value.frame == if blob.fields.frame.IsValid() then blob.fields.frame else RectAt(Point(0, 0), hint)
    ensures r.Some? ==>
      r.value.normal == if blob.fields.normal.IsValid() then blob.fields.normal else RectAt(Point(0, FrameHeight), hint)
  {
    if blob.byteLength < MinimumLength then None
    else if blob.fields.magic != MagicNumber then None
    else if blob.fields.major != MajorVersion then None
    else
      var f := blob.fields;
      var frame := if f.frame.IsValid() then f.frame else RectAt(Point(0, 0), hint);
      var normal := if f.normal.IsValid() then f.normal else RectAt(Point(0, FrameHeight), hint);
      Some(RestoredGeometry(frame, normal, f.maximized != 0))
  }

  /** Whatever saveGeometry writes passes every check of restoreGeometry and gives back its rectangles. */
  lemma DecodeAfterEncode(frame: Rect, normal: Rect, maximized: bool, hint: Size)
    requires frame.IsValid() && normal.IsValid()
    ensures DecodeGeometry(EncodeGeometry(frame, normal, maximized), hint)
         == Some(RestoredGeometry(frame, normal, maximized))
  {
  }

  /** The minor version is never looked at. */
  lemma DecodeIgnoresMinorVersion(blob: GeometryBlob, minor: uint16, hint: Size)
    ensures DecodeGeometry(blob.(fields := blob.fields.(minor := minor)), hint) == DecodeGeometry(blob, hint)
  {
  }

  /** With a proper size hint, every rectangle that is restored is a valid one. */
  lemma DecodedRectanglesAreValid(blob: GeometryBlob, hint: Size)
    requires hint.width >= 1 && hint.height >= 1
    requires DecodeGeometry(blob, hint).Some?
    ensures DecodeGeometry(blob, hint).value.frame.IsValid()
    ensures DecodeGeometry(blob, hint).value.normal.IsValid()
  {
  }

  /**
   * The part of a sub-window's state that geometry handling reads or writes.
   * `frame` stands for the frame the window has when it is not maximized:
   * the area a maximized sub-window fills (the MDI area) is not modelled, so
   * a maximized window's `frame` is its normal rectangle.
   */
  datatype WindowState = WindowState(
    frame: Rect, normal: Rect,
    maximized: bool, fullScreen: bool, minimized: bool, visible: bool)

  /**
   * Applying a restored geometry: a maximized one sets the normal rectangle
   * as geometry and adds the maximized state; otherwise maximized and
   * full-screen are cleared, the window moves to the frame's corner and
   * takes the normal rectangle's extent.
   */
  function Placed(w: WindowState, g: RestoredGeometry): (v: WindowState)
    ensures v.visible == w.visible && v.minimized == w.minimized
    ensures v.maximized == g.maximized
    ensures g.maximized ==> v.frame == g.normal && v.fullScreen == w.fullScreen
    ensures !g.maximized ==>
      !v.fullScreen && v.frame.TopLeft() == g.frame.TopLeft() && v.frame.Extent() == g.normal.Extent()
  {
    if g.maximized then
      w.(frame := g.normal, normal := g.normal, maximized := true)
    else
      var f := RectAt(g.frame.TopLeft(), g.normal.Extent());
      w.(frame := f, normal := f, maximized := false, fullScreen := false)
  }

  /** restoreGeometry's effect: nothing when the record is refused, the placement otherwise. */
  function Restored(w: WindowState, blob: GeometryBlob, hint: Size): WindowState
  {
    match DecodeGeometry(blob, hint)
    case None => w
    case Some(g) => Placed(w, g)
  }

  /**
   * Saving a normal (not maximized) window whose geometry is its normal
   * rectangle and restoring that record later, whatever happened meanwhile,
   * puts the window back on the same rectangle.
   */
  lemma RestoreAfterSave(w: WindowState, meanwhile: WindowState, hint: Size)
    requires w.frame.IsValid() && w.frame == w.normal && !w.maximized
    ensures var v := Restored(meanwhile, EncodeGeometry(w.frame, w.normal, w.maximized), hint);
      v.frame == w.frame && v.normal == w.normal && !v.maximized && !v.fullScreen
  {
    DecodeAfterEncode(w.frame, w.normal, w.maximized, hint);
  }

  /** Saving a maximized window and restoring it maximizes it again over its normal rectangle. */
  lemma RestoreAfterSaveMaximized(w: WindowState, meanwhile: WindowState, hint: Size)
    requires w.normal.IsValid() && w.maximized
    ensures var v := Restored(meanwhile, EncodeGeometry(w.frame, w.normal, w.maximized), hint);
      v.maximized && v.frame == w.normal && v.normal == w.normal
  {
  }

  /** QWidget::show, hide, showMaximized, showNormal and showMinimized on this state. */
  function Shown(w: WindowState): WindowState { w.(visible := true) }
  function Hidden(w: WindowState): WindowState { w.(visible := false) }
  function ShownMaximized(w: WindowState): WindowState
  {
    w.(maximized := true, fullScreen := false, minimized := false, visible := true)
  }
  function ShownNormal(w: WindowState): WindowState
  {
    w.(maximized := false, fullScreen := false, minimized := false, visible := true)
  }
  function ShownMinimized(w: WindowState): WindowState { w.(minimized := true, visible := true) }

  /**
   * Restoring a saved geometry and then showing the window: as placed when
   * the record is accepted; otherwise unchanged and shown maximized or
   * normal, as the caller chooses.
   */
  function RestoredAndShown(w: WindowState, blob: GeometryBlob, hint: Size, maximizeOnFailure: bool): WindowState
  {
    var placed := Restored(w, blob, hint);
    if DecodeGeometry(blob, hint).Some? then Shown(placed)
    else if maximizeOnFailure then ShownMaximized(placed)
    else ShownNormal(placed)
  }

  /** A VoreenMdiSubWindow: a sub-window of the MDI area that remembers its geometry. */
  class MdiSubWindow {
    var frame: Rect
    var normal: Rect
    var maximized: bool
    var fullScreen: bool
    var minimized: bool
    var visible: bool
    /** The sub-window's own size hint (sizeHint()), used for defaulted rectangles. */
    const sizeHint: Size

    ghost function State(): WindowState
      reads this
    {
      WindowState(frame, normal, maximized, fullScreen, minimized, visible)
    }

    constructor (hint: Size, initial: WindowState)
      ensures State() == initial && sizeHint == hint
    {
      frame, normal := initial.frame, initial.normal;
      maximized, fullScreen := initial.maximized, initial.fullScreen;
      minimized, visible := initial.minimized, initial.visible;
      sizeHint := hint;
    }

    /** saveGeometry: the record of the current frame and normal rectangles and the maximized flag. */
    method SaveGeometry() returns (blob: GeometryBlob)
      ensures blob == EncodeGeometry(frame, normal, maximized)
      ensures DecodeGeometry(blob, sizeHint).Some?
    {
      var bit: uint8 := if maximized then WindowMaximizedBit else 0;
      blob := GeometryBlob(EncodedLength,
        GeometryFields(MagicNumber, MajorVersion, MinorVersion, frame, normal, bit));
    }

    /** restoreGeometry: check the header, default invalid rectangles, then place the window. */
    method RestoreGeometry(blob: GeometryBlob) returns (ok: bool)
      modifies this
      ensures ok <==> DecodeGeometry(blob, sizeHint).Some?
      ensures State() == Restored(old(State()), blob, sizeHint)
    {
      if blob.byteLength < MinimumLength {
        return false;
      }
      if blob.fields.magic != MagicNumber {
        return false;
      }
      if blob.fields.major != MajorVersion {
        return false;
      }
      // (Allow all minor versions.)
      var restoredFrame := blob.fields.frame;
      var restoredNormal := blob.fields.normal;
      var isMaximized := blob.fields.maximized != 0;
      if !restoredFrame.IsValid() {
        restoredFrame := RectAt(Point(0, 0), sizeHint);
      }
      if !restoredNormal.IsValid() {
        restoredNormal := RectAt(Point(0, FrameHeight), sizeHint);
      }
      if isMaximized {
        frame, normal := restoredNormal, restoredNormal;
        maximized := true;
      } else {
        fullScreen, maximized := false, false;
        frame := RectAt(restoredFrame.TopLeft(), restoredNormal.Extent());
        normal := frame;
      }
      return true;
    }

    method Show()
      modifies this
      ensures State() == Shown(old(State()))
    {
      visible := true;
    }

    method Hide()
      modifies this
      ensures State() == Hidden(old(State()))
    {
      visible := false;
    }

    method ShowMaximized()
      modifies this
      ensures State() == ShownMaximized(old(State()))
    {
      maximized, fullScreen, minimized, visible := true, false, false, true;
    }

    method ShowNormal()
      modifies this
      ensures State() == ShownNormal(old(State()))
    {
      maximized, fullScreen, minimized, visible := false, false, false, true;
    }

    /** restoreGeometry followed by show, or by showMaximized or showNormal when the record is refused. */
    method RestoreAndShow(blob: GeometryBlob, maximizeOnFailure: bool) returns (placed: bool)
      modifies this
      ensures placed <==> DecodeGeometry(blob, sizeHint).Some?
      ensures State() == RestoredAndShown(old(State()), blob, sizeHint, maximizeOnFailure)
    {
      placed := RestoreGeometry(blob);
      if placed {
        Show();
      } else if maximizeOnFailure {
        ShowMaximized();
      } else {
        ShowNormal();
      }
    }

    /** closeEvent: closing a sub-window is refused; it is minimized instead. */
    method CloseEvent() returns (accepted: bool)
      modifies this
      ensures !accepted
      ensures State() == ShownMinimized(old(State()))
    {
      accepted := false;
      minimized, visible := true, true;
    }
  }
}

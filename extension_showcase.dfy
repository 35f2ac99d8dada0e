/**
 * The extension demo: the context-menu "Analyse Image" action
 * (`runImageAnalysis`, after the fetch), the menu's placement clamp
 * (`onContext`) and the secure-link scheme rule, which is the same
 * normalisation as the upload panel's (`UploadPanel.WithHttpsScheme`).
 */
module ExtensionShowcase {
  import opened Wrappers
  import opened Numbers
  import opened Items
  import opened Text
  import opened Engine
  import opened SessionStore
  import opened Submission

  const ContextPng := "context-image.png"
  const ContextJpg := "context-image.jpg"

  /** The name of the File built from the fetched blob: `.png` when the blob's type mentions png, else `.jpg`. */
  function ContextImageName(blobType: string): (r: string)
    ensures r == ContextPng <==> Contains(blobType, "png")
    ensures r == ContextPng || r == ContextJpg
  {
    if Contains(blobType, "png") then ContextPng else ContextJpg
  }

  /**
   * `runImageAnalysis`: `fetched` is the blob's MIME type, or `None` when the
   * fetch or the blob read throws; that exception is swallowed before the
   * store is touched. Otherwise the blob is submitted as an image under the
   * context-image name.
   */
  method RunImageAnalysis(store: UIStore, fetched: Option<string>, id: string, now: int, d: Draws)
    returns (outcome: Option<Outcome>)
    requires store.Valid()
    modifies store
    ensures store.Valid()
    ensures fetched.None? ==> outcome.None? && store.State() == old(store.State())
    ensures fetched.Some? ==>
      outcome.Some? &&
      Step(store.State(), outcome.value) == Submit(old(store.State()), id, ContextImageName(fetched.value), Image, now, d)
  {
    if fetched.None? {
      return None;
    }
    var name := ContextImageName(fetched.value);
    var result, inFlight := SubmitTo(store, id, name, Image, now, d);
    return Some(result);
  }

  /**
   * Whatever the branch, a context-image submission is an image named after
   * the blob type; a completed one heads the history.
   */
  lemma {:induction false} ContextSubmissionIsImage(s: UIState, blobType: string, id: string, now: int, d: Draws)
    ensures var r := Submit(s, id, ContextImageName(blobType), Image, now, d);
      && (r.state.analysisItem != s.analysisItem ==>
            && r.state.analysisItem.Some?
            && r.state.analysisItem.value.mediaType == Image
            && r.state.analysisItem.value.name == ContextImageName(blobType))
      && (r.outcome.Analysed? ==>
            && r.outcome.item.mediaType == Image
            && (r.outcome.item.name == ContextPng <==> Contains(blobType, "png"))
            && r.state.history[0] == r.outcome.item)
  {
    var name := ContextImageName(blobType);
    if s.user.Some? && s.dailyRemaining > 0 {
      AnalysedUpdates(s, id, name, Image, now, d);
    }
  }

  /** The two menus: an image gets three rows, a link two. */
  datatype MenuKind = ImageMenu | LinkMenu

  const MenuWidth: real := 220.0
  const MenuPad: real := 12.0

  /** Number of menu rows. */
  function MenuRows(kind: MenuKind): nat {
    if kind == ImageMenu then 3 else 2
  }

  /** The estimated menu height: 42 per row plus 16 of padding. */
  function MenuHeight(kind: MenuKind): (h: real)
    ensures kind == ImageMenu ==> h == 142.0
    ensures kind == LinkMenu ==> h == 100.0
  {
    (MenuRows(kind) * 42 + 16) as real
  }

  /**
   * One coordinate of the placement: pulled back when the menu would overflow
   * the far edge, then pushed to the margin when it is left of it.
   */
  function ClampAxis(v: real, extent: real, size: real): (r: real)
    ensures r >= MenuPad
    ensures extent >= size + 2.0 * MenuPad ==> r + size + MenuPad <= extent
    ensures MenuPad <= v && v + size + MenuPad <= extent ==> r == v
  {
    var a := if v + size + MenuPad > extent then extent - size - MenuPad else v;
    if a < MenuPad then MenuPad else a
  }

  /** The clamp is the interval projection: the margin wins when the extent is too small for the menu. */
  lemma ClampAxisIsProjection(v: real, extent: real, size: real)
    ensures ClampAxis(v, extent, size) == Max(MenuPad, Min(v, extent - size - MenuPad))
  {
  }

  /** Applying the clamp again changes nothing once the extent holds the menu. */
  lemma ClampAxisIdempotent(v: real, extent: real, size: real)
    requires extent >= size + 2.0 * MenuPad
    ensures ClampAxis(ClampAxis(v, extent, size), extent, size) == ClampAxis(v, extent, size)
  {
  }

  datatype MenuPosition = MenuPosition(x: real, y: real)

  /** `onContext`: the initial menu position for a right-click at the pointer in a viewport. */
  function ClampMenu(clientX: real, clientY: real, kind: MenuKind, innerWidth: real, innerHeight: real): (p: MenuPosition)
    ensures p.x >= MenuPad && p.y >= MenuPad
    ensures innerWidth >= MenuWidth + 2.0 * MenuPad ==> p.x + MenuWidth + MenuPad <= innerWidth
    ensures innerHeight >= MenuHeight(kind) + 2.0 * MenuPad ==> p.y + MenuHeight(kind) + MenuPad <= innerHeight
    ensures MenuPad <= clientX && clientX + MenuWidth + MenuPad <= innerWidth ==> p.x == clientX
    ensures MenuPad <= clientY && clientY + MenuHeight(kind) + MenuPad <= innerHeight ==> p.y == clientY
  {
    MenuPosition(ClampAxis(clientX, innerWidth, MenuWidth), ClampAxis(clientY, innerHeight, MenuHeight(kind)))
  }
}

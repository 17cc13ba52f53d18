/**
 * apps/desktop/src/tools/mirror_tool.cpp: mirroring the selection across
 * an axis given by two presses.  The first press records the axis's first
 * point; the second records the other point and asks the kernel to mirror
 * the selected ids across the line through the two.
 */
module MirrorTools {
  import opened Wrappers
  import opened Model
  import opened Desk
  import opened DocStores

  function MirrorCall(doc: DeskDoc, ids: seq<string>, a: Vec2, b: Vec2): Call
  {
    ApplyMirror(doc, ids, a, b)
  }

  class MirrorTool {
    const store: DocStore
    var a: Vec2
    var b: Vec2
    var haveA: bool

    constructor (store: DocStore)
      ensures this.store == store && !haveA
    {
      this.store := store;
      a, b := Vec2(0.0, 0.0), Vec2(0.0, 0.0);
      haveA := false;
    }

    /** `onPointerDown`: the first press takes the axis's first point; the second completes the axis and mirrors. */
    method OnPointerDown(w: Vec2, reply: DocReply) returns (warn: Option<Warning>)
      requires store.Valid()
      modifies this, store
      ensures store.Valid()
      ensures haveA == !old(haveA)
      ensures !old(haveA) ==> a == w && store.View() == old(store.View()) && warn.None?
      ensures old(haveA) ==>
        && a == old(a) && b == w
        && store.View() == Replied(old(store.View()), MirrorCall(old(store.document), old(store.selection), old(a), w), reply)
        && warn == FailureWarning("Mirror", reply)
    {
      if !haveA {
        a := w;
        haveA := true;
        return None;
      }
      b := w;
      haveA := false;
      store.Commit(MirrorCall(store.document, store.selection, a, b), reply);
      warn := FailureWarning("Mirror", reply);
    }

    /** `onKeyPress`: Escape forgets the first point. */
    method OnKeyPress(e: KeyEvent)
      modifies this
      ensures haveA == (old(haveA) && e.key != Escape)
      ensures a == old(a) && b == old(b)
    {
      if e.key == Escape {
        haveA := false;
      }
    }
  }

  /** Two presses from a fresh start make exactly one mirror call, across the axis through the two points, and start over. */
  method MirrorTwice(t: MirrorTool, p: Vec2, q: Vec2, reply: DocReply) returns (warn: Option<Warning>)
    requires t.store.Valid() && !t.haveA
    modifies t, t.store
    ensures t.store.Valid() && !t.haveA
    ensures t.store.sent == old(t.store.sent) + [MirrorCall(old(t.store.document), old(t.store.selection), p, q)]
    ensures t.store.document == (if reply.Ok? then reply.value else old(t.store.document))
  {
    warn := t.OnPointerDown(p, reply);
    warn := t.OnPointerDown(q, reply);
  }
}

/**
 * The broadcaster: it owns the global fix flag, flips it on its toggle key,
 * and pushes the flag to every poster it discovered at start-up.
 */
module AccessibilityBroadcast {
  import opened Wrappers
  import opened Input
  import opened ColourBlindMode
  import opened AccessibilityPosters

  /** The renderers that the posters of ps are bound to. */
  function RenderersOf(ps: seq<AccessibilityPoster?>): set<MeshRenderer?>
    reads ps
  {
    set p | p in ps && p != null && p.targetRenderer != null :: p.targetRenderer
  }

  /** The controllers the posters of ps read their mode from. */
  function ControllersOf(ps: seq<AccessibilityPoster?>): set<ColourBlindModeController>
  {
    set p | p in ps && p != null :: p.controller
  }

  /** What ApplyFix does on one array entry: the renderer it may write and the material it chooses. */
  datatype Write = Write(target: MeshRenderer?, chosen: Option<MaterialId>)

  /** A null entry is skipped: it writes no renderer. */
  function WriteOf(p: AccessibilityPoster?, enable: bool): Write
    reads p, if p != null then {p.controller} else {}
  {
    if p == null then Write(null, None) else Write(p.targetRenderer, p.Chosen(enable))
  }

  /** The writes of a poster array, entry by entry. */
  function WritesOf(ps: seq<AccessibilityPoster?>, enable: bool): (ws: seq<Write>)
    reads ps, ControllersOf(ps)
    ensures |ws| == |ps|
  {
    if ps == [] then []
    else WritesOf(ps[..|ps| - 1], enable) + [WriteOf(ps[|ps| - 1], enable)]
  }

  /** A sequence that agrees with the writes of ps entry by entry is those writes. */
  lemma WritesOfIs(ps: seq<AccessibilityPoster?>, enable: bool, ws: seq<Write>)
    requires |ws| == |ps|
    requires forall k :: 0 <= k < |ps| ==> WriteOf(ps[k], enable) == ws[k]
    ensures WritesOf(ps, enable) == ws
  {
    forall k | 0 <= k < |ps|
      ensures WritesOf(ps, enable)[k] == ws[k]
    {
      WritesOfAt(ps, enable, k);
    }
  }

  /** Entry k of the writes is what ApplyFix does on entry k of the array. */
  lemma {:induction false} WritesOfAt(ps: seq<AccessibilityPoster?>, enable: bool, k: nat)
    requires k < |ps|
    ensures WritesOf(ps, enable)[k] == WriteOf(ps[k], enable)
  {
    if k < |ps| - 1 {
      WritesOfAt(ps[..|ps| - 1], enable, k);
    }
  }

  /**
   * The material renderer r holds after the writes ws were carried out in
   * order, starting from `before`: the last non-null choice aimed at r.
   */
  function MaterialAfter(ws: seq<Write>, r: MeshRenderer, before: Option<MaterialId>): Option<MaterialId>
  {
    if ws == [] then before
    else if ws[|ws| - 1].target == r then SlotAfter(MaterialAfter(ws[..|ws| - 1], r, before), ws[|ws| - 1].chosen)
    else MaterialAfter(ws[..|ws| - 1], r, before)
  }

  /** One more write: the prefix of length i + 1 adds the effect of write i. */
  lemma MaterialAfterStep(ws: seq<Write>, i: nat, r: MeshRenderer, before: Option<MaterialId>)
    requires i < |ws|
    ensures MaterialAfter(ws[..i + 1], r, before) ==
              if ws[i].target == r then SlotAfter(MaterialAfter(ws[..i], r, before), ws[i].chosen)
              else MaterialAfter(ws[..i], r, before)
  {
    assert ws[..i + 1][..i] == ws[..i];
  }

  /** Writes aimed at the same renderer agree on the material. */
  ghost predicate ConsistentWrites(ws: seq<Write>)
  {
    forall v, w :: v in ws && w in ws && v.target != null && v.target == w.target ==> v.chosen == w.chosen
  }

  /** No two distinct posters of ps share a renderer. */
  ghost predicate ExclusiveRenderers(ps: seq<AccessibilityPoster?>)
    reads ps
  {
    forall p, q ::
      p in ps && q in ps && p != null && q != null && p.targetRenderer != null && p.targetRenderer == q.targetRenderer
      ==> p == q
  }

  /** Posters that do not share renderers make consistent writes. */
  lemma ExclusiveIsConsistent(ps: seq<AccessibilityPoster?>, enable: bool)
    requires ExclusiveRenderers(ps)
    ensures ConsistentWrites(WritesOf(ps, enable))
  {
    var ws := WritesOf(ps, enable);
    forall v, w | v in ws && w in ws && v.target != null && v.target == w.target
      ensures v.chosen == w.chosen
    {
      var i :| 0 <= i < |ws| && ws[i] == v;
      var j :| 0 <= j < |ws| && ws[j] == w;
      WritesOfAt(ps, enable, i);
      WritesOfAt(ps, enable, j);
      assert ps[i] != null && ps[j] != null;
      assert ps[i] == ps[j];
    }
  }

  /** A renderer no write is aimed at keeps its material. */
  lemma {:induction false} MaterialAfterUntargeted(ws: seq<Write>, r: MeshRenderer, before: Option<MaterialId>)
    requires forall w :: w in ws ==> w.target != r
    ensures MaterialAfter(ws, r, before) == before
  {
    if ws != [] {
      assert ws[|ws| - 1] in ws;
      MaterialAfterUntargeted(ws[..|ws| - 1], r, before);
    }
  }

  /**
   * With consistent writes, a renderer that some write w is aimed at ends
   * with w's choice (or its old material when that choice is null),
   * however many times and wherever such writes occur.
   */
  lemma {:induction false} MaterialAfterTargeted(ws: seq<Write>, w: Write, before: Option<MaterialId>)
    requires ConsistentWrites(ws)
    requires w in ws && w.target != null
    ensures MaterialAfter(ws, w.target, before) == SlotAfter(before, w.chosen)
  {
    var r := w.target;
    var init := ws[..|ws| - 1];
    var last := ws[|ws| - 1];
    assert ws == init + [last];
    assert ConsistentWrites(init);
    if w in init {
      MaterialAfterTargeted(init, w, before);
      if last.target == r {
        assert last.chosen == w.chosen;
        SlotAfterIdempotent(before, w.chosen);
      }
    } else {
      assert last == w;
      forall v | v in init
        ensures v.target != r || v.chosen == w.chosen
      {
        assert v in ws;
      }
      if u :| u in init && u.target == r {
        MaterialAfterTargeted(init, u, before);
        SlotAfterIdempotent(before, w.chosen);
      } else {
        MaterialAfterUntargeted(init, r, before);
      }
    }
  }

  /**
   * With no two posters sharing a renderer, the renderer of each poster in
   * ps ends with that poster's own choice (or keeps its material when the
   * choice is null).
   */
  lemma BroadcastReachesOwner(ps: seq<AccessibilityPoster?>, enable: bool, p: AccessibilityPoster, before: Option<MaterialId>)
    requires ExclusiveRenderers(ps)
    requires p in ps && p.targetRenderer != null
    ensures MaterialAfter(WritesOf(ps, enable), p.targetRenderer, before) == SlotAfter(before, p.Chosen(enable))
  {
    var ws := WritesOf(ps, enable);
    ExclusiveIsConsistent(ps, enable);
    var k :| 0 <= k < |ps| && ps[k] == p;
    WritesOfAt(ps, enable, k);
    assert ws[k] in ws;
    MaterialAfterTargeted(ws, ws[k], before);
  }

  /**
   * The order of the writes does not matter: two write sequences with the
   * same members (in any order, with any repetitions) leave every renderer
   * with the same material, provided they are consistent.
   */
  lemma MaterialAfterOrderIndependent(ws: seq<Write>, vs: seq<Write>, r: MeshRenderer, before: Option<MaterialId>)
    requires ConsistentWrites(ws)
    requires forall w :: w in ws <==> w in vs
    ensures MaterialAfter(ws, r, before) == MaterialAfter(vs, r, before)
  {
    assert ConsistentWrites(vs);
    if w :| w in ws && w.target == r {
      MaterialAfterTargeted(ws, w, before);
      MaterialAfterTargeted(vs, w, before);
    } else {
      MaterialAfterUntargeted(ws, r, before);
      MaterialAfterUntargeted(vs, r, before);
    }
  }

  /**
   * The broadcast does not depend on the order in which the posters were
   * discovered: two arrays holding the same posters, none sharing a
   * renderer, leave every renderer with the same material.
   */
  lemma BroadcastOrderIndependent(ps: seq<AccessibilityPoster?>, qs: seq<AccessibilityPoster?>, enable: bool, r: MeshRenderer, before: Option<MaterialId>)
    requires ExclusiveRenderers(ps)
    requires forall p :: p in ps <==> p in qs
    ensures MaterialAfter(WritesOf(ps, enable), r, before) == MaterialAfter(WritesOf(qs, enable), r, before)
  {
    var ws, vs := WritesOf(ps, enable), WritesOf(qs, enable);
    forall w ensures w in ws <==> w in vs {
      if w in ws {
        var i :| 0 <= i < |ps| && ws[i] == w;
        assert ps[i] in qs;
        var j :| 0 <= j < |qs| && qs[j] == ps[i];
        WritesOfAt(ps, enable, i);
        WritesOfAt(qs, enable, j);
        assert vs[j] == w;
      }
      if w in vs {
        var j :| 0 <= j < |qs| && vs[j] == w;
        assert qs[j] in ps;
        var i :| 0 <= i < |ps| && ps[i] == qs[j];
        WritesOfAt(ps, enable, i);
        WritesOfAt(qs, enable, j);
        assert ws[i] == w;
      }
    }
    ExclusiveIsConsistent(ps, enable);
    MaterialAfterOrderIndependent(ws, vs, r, before);
  }

  /**
   * Without the exclusive-renderer hypothesis the order does matter: two
   * posters bound to one renderer with different non-null choices leave it
   * with whichever choice comes last in the array.
   */
  lemma SharedRendererOrderMatters(r: MeshRenderer, a: MaterialId, b: MaterialId, before: Option<MaterialId>)
    requires a != b
    ensures MaterialAfter([Write(r, Some(a)), Write(r, Some(b))], r, before) == Some(b)
    ensures MaterialAfter([Write(r, Some(b)), Write(r, Some(a))], r, before) == Some(a)
  {
    assert [Write(r, Some(a)), Write(r, Some(b))][..1] == [Write(r, Some(a))];
    assert [Write(r, Some(b)), Write(r, Some(a))][..1] == [Write(r, Some(b))];
  }

  class AccessibilityManager {
    /** The global fix flag. */
    var applyFix: bool
    var toggleKey: KeyCode
    /** The posters discovered by Start; null before Start. */
    var posters: array?<AccessibilityPoster?>

    /** The inspector-authored fields (the C# defaults are false and DefaultToggleKey). */
    constructor(applyFix: bool, toggleKey: KeyCode)
      ensures this.applyFix == applyFix && this.toggleKey == toggleKey && posters == null
    {
      this.applyFix := applyFix;
      this.toggleKey := toggleKey;
      posters := null;
    }

    /** The renderers UpdatePosters may write: none before Start. */
    function Renderers(): set<MeshRenderer?>
      reads this, posters, if posters == null then [] else posters[..]
    {
      if posters == null then {} else RenderersOf(posters[..])
    }

    /** Start: take the discovered posters and broadcast the initial flag. */
    method Start(found: array<AccessibilityPoster?>)
      modifies this`posters, RenderersOf(found[..])
      ensures posters == found && applyFix == old(applyFix)
      ensures forall r: MeshRenderer :: r in Renderers() ==>
                r.material == MaterialAfter(WritesOf(found[..], applyFix), r, old(r.material))
    {
      posters := found;
      UpdatePosters();
    }

    /** Update: the toggle key flips the flag once and broadcasts it. */
    method Update(pressed: set<KeyCode>)
      modifies this`applyFix, Renderers()
      ensures applyFix == (old(applyFix) != (toggleKey in pressed))
      ensures toggleKey !in pressed ==> forall r: MeshRenderer :: r in Renderers() ==> r.material == old(r.material)
      ensures toggleKey in pressed && posters != null ==>
                forall r: MeshRenderer :: r in Renderers() ==>
                  r.material == MaterialAfter(WritesOf(posters[..], applyFix), r, old(r.material))
    {
      if toggleKey in pressed {
        applyFix := !applyFix;
        UpdatePosters();
      }
    }

    /**
     * UpdatePosters: call ApplyFix(applyFix) on every non-null poster, in
     * array order. Before Start there is nothing it may write. When no two
     * posters share a renderer, BroadcastReachesOwner gives each poster's
     * renderer that poster's own choice.
     */
    method UpdatePosters()
      modifies Renderers()
      ensures posters != null ==>
                forall r: MeshRenderer :: r in Renderers() ==>
                  r.material == MaterialAfter(WritesOf(posters[..], applyFix), r, old(r.material))
    {
      if posters == null {
        return;
      }
      ghost var ws := WritesOf(posters[..], applyFix);
      ghost var rs := Renderers();
      forall k | 0 <= k < posters.Length
        ensures WriteOf(posters[k], applyFix) == ws[k]
      {
        WritesOfAt(posters[..], applyFix, k);
      }
      for i := 0 to posters.Length
        invariant forall k :: 0 <= k < posters.Length ==> WriteOf(posters[k], applyFix) == ws[k]
        invariant forall r: MeshRenderer :: r in rs ==>
                    r.material == MaterialAfter(ws[..i], r, old(r.material))
      {
        var p := posters[i];
        if p != null {
          p.ApplyFix(applyFix);
        }
        forall r: MeshRenderer | r in rs
          ensures r.material == MaterialAfter(ws[..i + 1], r, old(r.material))
        {
          MaterialAfterStep(ws, i, r, old(r.material));
        }
      }
      assert ws[..posters.Length] == ws;
      WritesOfIs(posters[..], applyFix, ws);
    }
  }
}

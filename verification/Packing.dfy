/** Packing the separate projections of each layer into fused ones, as `pack_layers` of persistent_ps.py does in
    place. */
module Packing {
  import opened Sequences
  import opened QkvSharding
  import opened TensorParallel

  type Layer = (string, nat)
  type Weights = map<Name, Tensor>

  /** The projections that a fused weight consists of, in order. */
  function Members(kind: Kind): (r: seq<Part>)
  {
    match kind
    case QkvWeight => [QWeight, KWeight, VWeight]
    case QkvBias => [QBias, KBias, VBias]
    case GateUpWeight => [GateWeight, UpWeight]
    case GateUpBias => [GateBias, UpBias]
    case _ => []
  }

  /** The fused weight that a projection goes into. */
  function FusedOf(part: Part): (k: Kind)
    ensures part in Members(k) && IsFused(k)
  {
    match part
    case QWeight => QkvWeight case KWeight => QkvWeight case VWeight => QkvWeight
    case QBias => QkvBias case KBias => QkvBias case VBias => QkvBias
    case GateWeight => GateUpWeight case UpWeight => GateUpWeight
    case GateBias => GateUpBias case UpBias => GateUpBias
  }

  predicate IsFused(kind: Kind) { kind in FUSED }

  const FUSED: set<Kind> := {QkvWeight, QkvBias, GateUpWeight, GateUpBias}

  function PartName(g: Layer, part: Part): Name { Name(Some(g), Single(part)) }

  predicate AllPresent(w: Weights, g: Layer, kind: Kind)
  {
    forall i :: 0 <= i < |Members(kind)| ==> PartName(g, Members(kind)[i]) in w
  }

  /** The members' rows one after the other. */
  function Joined(w: Weights, g: Layer, kind: Kind): Tensor
    requires IsFused(kind) && AllPresent(w, g, kind)
  {
    Tensor(Flatten(PartRows(w, g, kind)), w[PartName(g, Members(kind)[0])].cols)
  }

  function PartRows(w: Weights, g: Layer, kind: Kind): (r: seq<seq<seq<real>>>)
    requires AllPresent(w, g, kind)
    ensures |r| == |Members(kind)| && forall i :: 0 <= i < |r| ==> r[i] == w[PartName(g, Members(kind)[i])].rows
  {
    seq(|Members(kind)|, i requires 0 <= i < |Members(kind)| => w[PartName(g, Members(kind)[i])].rows)
  }

  function Lookup(w: Weights, n: Name): Option<Tensor>
  {
    if n in w then Some(w[n]) else None
  }

  /** What a name holds once the layers of `done` have been packed. */
  function PackedAt(w: Weights, done: set<Layer>, n: Name): Option<Tensor>
  {
    if n.layer.None? || n.layer.value !in done then Lookup(w, n)
    else if n.kind.Single? then None
    else if IsFused(n.kind) && AllPresent(w, n.layer.value, n.kind) then Some(Joined(w, n.layer.value, n.kind))
    else Lookup(w, n)
  }

  function FusedNames(done: set<Layer>): set<Name>
  {
    set g, k | g in done && k in FUSED :: Name(Some(g), k)
  }

  function Packed(w: Weights, done: set<Layer>): (r: Weights)
    ensures forall n :: Lookup(r, n) == PackedAt(w, done, n)
  {
    var r := map n | n in w.Keys + FusedNames(done) && PackedAt(w, done, n).Some? :: PackedAt(w, done, n).value;
    assert forall n :: PackedAt(w, done, n).Some? ==> n in w.Keys + FusedNames(done);
    r
  }

  function Layers(w: Weights): set<Layer>
  {
    set n | n in w && n.layer.Some? :: n.layer.value
  }

  lemma SameLookups(a: Weights, b: Weights)
    requires forall n :: Lookup(a, n) == Lookup(b, n)
    ensures a == b
  {
    forall n ensures n in a <==> n in b {
      assert Lookup(a, n) == Lookup(b, n);
    }
    forall n | n in a ensures a[n] == b[n] {
      assert Lookup(a, n) == Lookup(b, n);
    }
  }

  class TensorDict {
    var tensors: Weights

    constructor (w: Weights)
      ensures tensors == w
    {
      tensors := w;
    }

    method PackLayers()
      modifies this
      ensures tensors == Packed(old(tensors), Layers(old(tensors)))
    {
      ghost var w := tensors;
      var todo := Layers(tensors);
      ghost var done: set<Layer> := {};
      SameLookups(w, Packed(w, {}));
      while todo != {}
        invariant done + todo == Layers(w) && done !! todo
        invariant tensors == Packed(w, done)
        decreases todo
      {
        var g :| g in todo;
        PackLayer(w, done, g);
        todo, done := todo - {g}, done + {g};
      }
    }

    /** One layer: its projections are taken out, and every complete group is put back as one tensor. */
    method PackLayer(ghost w: Weights, ghost done: set<Layer>, g: Layer)
      requires g !in done && tensors == Packed(w, done)
      modifies this
      ensures tensors == Packed(w, done + {g})
    {
      var before := tensors;
      var kinds := [QkvWeight, GateUpWeight, QkvBias, GateUpBias];
      tensors := map n | n in before && !(n.layer == Some(g) && n.kind.Single?) :: before[n];
      Removed(before, g, tensors);
      hide Shows, AllPresent, Joined, Packed, Members;
      for i := 0 to |kinds|
        invariant Shows(tensors, before, g, kinds[..i])
      {
        ShowsNext(tensors, before, g, kinds, i);
        if AllPresent(before, g, kinds[i]) {
          tensors := tensors[Name(Some(g), kinds[i]) := Joined(before, g, kinds[i])];
        }
      }
      assert kinds[..|kinds|] == kinds;
      ShowsAll(w, done, g, before, tensors, kinds);
    }
  }

  /** What a name holds while layer g is being packed, once the fused kinds so far are in place. */
  function Partial(before: Weights, g: Layer, kinds: seq<Kind>, n: Name): Option<Tensor>
  {
    if n.layer != Some(g) then Lookup(before, n)
    else if n.kind.Single? then None
    else if n.kind in kinds && IsFused(n.kind) && AllPresent(before, g, n.kind) then Some(Joined(before, g, n.kind))
    else Lookup(before, n)
  }

  ghost predicate Shows(t: Weights, before: Weights, g: Layer, kinds: seq<Kind>)
  {
    forall n :: Lookup(t, n) == Partial(before, g, kinds, n)
  }

  lemma Removed(before: Weights, g: Layer, t: Weights)
    requires t == map n | n in before && !(n.layer == Some(g) && n.kind.Single?) :: before[n]
    ensures Shows(t, before, g, [])
  {
  }

  lemma ShowsNext(t: Weights, before: Weights, g: Layer, kinds: seq<Kind>, i: nat)
    requires i < |kinds| && IsFused(kinds[i]) && Shows(t, before, g, kinds[..i])
    ensures var t' := if AllPresent(before, g, kinds[i]) then t[Name(Some(g), kinds[i]) := Joined(before, g, kinds[i])]
                      else t;
            Shows(t', before, g, kinds[..i + 1])
  {
    hide AllPresent, Joined;
    var t' := if AllPresent(before, g, kinds[i]) then t[Name(Some(g), kinds[i]) := Joined(before, g, kinds[i])] else t;
    assert kinds[..i + 1] == kinds[..i] + [kinds[i]];
    forall n ensures Lookup(t', n) == Partial(before, g, kinds[..i + 1], n) {
      assert Lookup(t, n) == Partial(before, g, kinds[..i], n);
    }
  }

  lemma ShowsAll(w: Weights, done: set<Layer>, g: Layer, before: Weights, t: Weights, kinds: seq<Kind>)
    requires g !in done && before == Packed(w, done) && Shows(t, before, g, kinds)
    requires kinds == [QkvWeight, GateUpWeight, QkvBias, GateUpBias]
    ensures t == Packed(w, done + {g})
  {
    hide AllPresent, Joined, Packed;
    PartialDone(w, done, g, before, kinds);
    forall n ensures Lookup(t, n) == Lookup(Packed(w, done + {g}), n) {
      assert Lookup(t, n) == Partial(before, g, kinds, n);
    }
    SameLookups(t, Packed(w, done + {g}));
  }

  /** Layers packed earlier leave the members of g alone. */
  lemma MembersKept(w: Weights, done: set<Layer>, g: Layer)
    requires g !in done
    ensures forall kind :: AllPresent(Packed(w, done), g, kind) <==> AllPresent(w, g, kind)
    ensures forall kind :: IsFused(kind) && AllPresent(w, g, kind) ==>
              Joined(Packed(w, done), g, kind) == Joined(w, g, kind)
  {
    hide Packed, Members;
    var p := Packed(w, done);
    forall kind ensures AllPresent(p, g, kind) <==> AllPresent(w, g, kind) {
      forall i | 0 <= i < |Members(kind)|
        ensures PartName(g, Members(kind)[i]) in p <==> PartName(g, Members(kind)[i]) in w {
        MemberKept(w, done, g, Members(kind)[i]);
      }
    }
    forall kind | IsFused(kind) && AllPresent(w, g, kind) ensures Joined(p, g, kind) == Joined(w, g, kind) {
      MembersJoinAlike(w, done, g, kind);
    }
  }

  lemma MembersJoinAlike(w: Weights, done: set<Layer>, g: Layer, kind: Kind)
    requires g !in done && IsFused(kind) && AllPresent(w, g, kind) && AllPresent(Packed(w, done), g, kind)
    ensures Joined(Packed(w, done), g, kind) == Joined(w, g, kind)
  {
    hide Packed;
    var p := Packed(w, done);
    forall i | 0 <= i < |Members(kind)| ensures PartRows(p, g, kind)[i] == PartRows(w, g, kind)[i] {
      MemberKept(w, done, g, Members(kind)[i]);
    }
    assert PartRows(p, g, kind) == PartRows(w, g, kind);
    MemberKept(w, done, g, Members(kind)[0]);
  }

  lemma MemberKept(w: Weights, done: set<Layer>, g: Layer, part: Part)
    requires g !in done
    ensures Lookup(Packed(w, done), PartName(g, part)) == Lookup(w, PartName(g, part))
  {
    assert PackedAt(w, done, PartName(g, part)) == Lookup(w, PartName(g, part));
  }

  lemma PartialDone(w: Weights, done: set<Layer>, g: Layer, before: Weights, kinds: seq<Kind>)
    requires g !in done && before == Packed(w, done) && kinds == [QkvWeight, GateUpWeight, QkvBias, GateUpBias]
    ensures forall n :: Partial(before, g, kinds, n) == PackedAt(w, done + {g}, n)
  {
    MembersKept(w, done, g);
    forall n ensures Partial(before, g, kinds, n) == PackedAt(w, done + {g}, n) {
      assert Lookup(before, n) == PackedAt(w, done, n);
      assert IsFused(n.kind) <==> n.kind in kinds;
      hide Joined, AllPresent;
    }
  }

  // ----- Unpacking -----

  /** Where a projection starts and ends in its fused tensor. */
  function PartRange(c: Heads, part: Part, rows: nat): (nat, nat)
    requires c.heads > 0
  {
    var q, k := c.QueryRows(), c.KvRows();
    match part
    case QWeight => (0, q) case QBias => (0, q)
    case KWeight => (q, q + k) case KBias => (q, q + k)
    case VWeight => (q + k, rows) case VBias => (q + k, rows)
    case GateWeight => (0, rows / 2) case GateBias => (0, rows / 2)
    case UpWeight => (rows / 2, rows) case UpBias => (rows / 2, rows)
  }

  function UnpackedAt(c: Heads, w: Weights, n: Name): Option<Tensor>
    requires c.heads > 0
  {
    if n.layer.Some? && n.kind.Single? then
      var fused := Name(n.layer, FusedOf(n.kind.part));
      if fused in w then
        var (lo, hi) := PartRange(c, n.kind.part, |w[fused].rows|);
        Some(Tensor(Slice(w[fused].rows, lo, hi), w[fused].cols))
      else Lookup(w, n)
    else if n.layer.Some? && IsFused(n.kind) then None
    else Lookup(w, n)
  }

  /** An unfused checkpoint of the given heads: every group is complete or absent, and its parts have the sizes of the
      model and one width. */
  ghost predicate Unfused(c: Heads, w: Weights)
  {
    && c.heads > 0
    && (forall n :: n in w && n.layer.Some? ==> !IsFused(n.kind))
    && (forall g, part :: PartName(g, part) in w ==> AllPresent(w, g, FusedOf(part)))
    && (forall g, kind :: IsFused(kind) && AllPresent(w, g, kind) ==> Sized(c, w, g, kind))
  }

  ghost predicate Sized(c: Heads, w: Weights, g: Layer, kind: Kind)
    requires c.heads > 0 && AllPresent(w, g, kind)
  {
    var m := Members(kind);
    && (forall i :: 0 <= i < |m| ==> w[PartName(g, m[i])].cols == w[PartName(g, m[0])].cols)
    && (kind == QkvWeight || kind == QkvBias ==>
          && |w[PartName(g, m[0])].rows| == c.QueryRows()
          && |w[PartName(g, m[1])].rows| == |w[PartName(g, m[2])].rows| == c.KvRows())
    && (kind == GateUpWeight || kind == GateUpBias ==> |w[PartName(g, m[0])].rows| == |w[PartName(g, m[1])].rows|)
  }

  lemma PartGroup(part: Part)
    ensures IsFused(FusedOf(part)) && 2 <= |Members(FusedOf(part))| <= 3
    ensures |Members(FusedOf(part))| == 3 ==> part in [QWeight, KWeight, VWeight, QBias, KBias, VBias]
    ensures |Members(FusedOf(part))| == 2 ==> part in [GateWeight, UpWeight, GateBias, UpBias]
  {
  }

  lemma PartBack(c: Heads, w: Weights, g: Layer, part: Part)
    requires Unfused(c, w) && PartName(g, part) in w
    ensures AllPresent(w, g, FusedOf(part))
    ensures var t := Joined(w, g, FusedOf(part));
            var (lo, hi) := PartRange(c, part, |t.rows|);
            Tensor(Slice(t.rows, lo, hi), t.cols) == w[PartName(g, part)]
  {
    var kind := FusedOf(part);
    assert Sized(c, w, g, kind) && AllPresent(w, g, kind) && c.heads > 0;
    PartGroup(part);
    hide Mul, Joined, PartRows, Unfused, AllPresent, Sized, PartRange, Slice, FusedOf, Members;
    if |Members(kind)| == 3 {
      JoinedThree(w, g, kind);
      ThreeBack(c, w, g, part);
    } else {
      JoinedTwo(w, g, kind);
      TwoBack(c, w, g, part);
    }
  }

  lemma ThreeBack(c: Heads, w: Weights, g: Layer, part: Part)
    requires c.heads > 0 && AllPresent(w, g, FusedOf(part)) && Sized(c, w, g, FusedOf(part))
    requires part in [QWeight, KWeight, VWeight, QBias, KBias, VBias]
    requires var m := Members(FusedOf(part));
             Joined(w, g, FusedOf(part)).rows
             == w[PartName(g, m[0])].rows + w[PartName(g, m[1])].rows + w[PartName(g, m[2])].rows
    ensures PartName(g, part) in w
    ensures var t := Joined(w, g, FusedOf(part));
            var (lo, hi) := PartRange(c, part, |t.rows|);
            Slice(t.rows, lo, hi) == w[PartName(g, part)].rows && t.cols == w[PartName(g, part)].cols
  {
    var m := Members(FusedOf(part));
    var i: nat := if part == QWeight || part == QBias then 0 else if part == KWeight || part == KBias then 1 else 2;
    assert m[i] == part;
    ThreeParts(w[PartName(g, m[0])].rows, w[PartName(g, m[1])].rows, w[PartName(g, m[2])].rows);
    hide Mul, Slice;
  }

  lemma TwoBack(c: Heads, w: Weights, g: Layer, part: Part)
    requires c.heads > 0 && AllPresent(w, g, FusedOf(part)) && Sized(c, w, g, FusedOf(part))
    requires part in [GateWeight, UpWeight, GateBias, UpBias]
    requires var m := Members(FusedOf(part));
             Joined(w, g, FusedOf(part)).rows == w[PartName(g, m[0])].rows + w[PartName(g, m[1])].rows
    ensures PartName(g, part) in w
    ensures var t := Joined(w, g, FusedOf(part));
            var (lo, hi) := PartRange(c, part, |t.rows|);
            Slice(t.rows, lo, hi) == w[PartName(g, part)].rows && t.cols == w[PartName(g, part)].cols
  {
    var m := Members(FusedOf(part));
    var i: nat := if part == GateWeight || part == GateBias then 0 else 1;
    assert m[i] == part;
    var a, b := w[PartName(g, m[0])].rows, w[PartName(g, m[1])].rows;
    ThreeParts(a, b, []);
    assert a + b + [] == a + b;
    hide Mul, Slice;
  }

  lemma JoinedThree(w: Weights, g: Layer, kind: Kind)
    requires IsFused(kind) && AllPresent(w, g, kind) && |Members(kind)| == 3
    ensures var m := Members(kind);
            var a, b, e := w[PartName(g, m[0])].rows, w[PartName(g, m[1])].rows, w[PartName(g, m[2])].rows;
            Joined(w, g, kind).rows == a + b + e
  {
    var p := PartRows(w, g, kind);
    assert p == [p[0], p[1], p[2]];
    FlattenThree(p[0], p[1], p[2]);
  }

  lemma JoinedTwo(w: Weights, g: Layer, kind: Kind)
    requires IsFused(kind) && AllPresent(w, g, kind) && |Members(kind)| == 2
    ensures var m := Members(kind);
            var a, b := w[PartName(g, m[0])].rows, w[PartName(g, m[1])].rows;
            Joined(w, g, kind).rows == a + b
  {
    var p := PartRows(w, g, kind);
    assert p == [p[0], p[1]];
    FlattenTwo(p[0], p[1]);
  }

  /** Where all the named projections of a layer were, the fused weight is their rows in that order. */
  predicate FusesThree(w: Weights, p: Weights, g: Layer, kind: Kind, a: Part, b: Part, e: Part)
  {
    PartName(g, a) in w && PartName(g, b) in w && PartName(g, e) in w ==>
      Lookup(p, Name(Some(g), kind))
      == Some(Tensor(w[PartName(g, a)].rows + w[PartName(g, b)].rows + w[PartName(g, e)].rows, w[PartName(g, a)].cols))
  }

  predicate FusesTwo(w: Weights, p: Weights, g: Layer, kind: Kind, a: Part, b: Part)
  {
    PartName(g, a) in w && PartName(g, b) in w ==>
      Lookup(p, Name(Some(g), kind))
      == Some(Tensor(w[PartName(g, a)].rows + w[PartName(g, b)].rows, w[PartName(g, a)].cols))
  }

  /** Query before key before value rows, and gate before up rows. */
  lemma FusedLayout(w: Weights, g: Layer)
    ensures var p := Packed(w, Layers(w));
            && FusesThree(w, p, g, QkvWeight, QWeight, KWeight, VWeight)
            && FusesThree(w, p, g, QkvBias, QBias, KBias, VBias)
            && FusesTwo(w, p, g, GateUpWeight, GateWeight, UpWeight)
            && FusesTwo(w, p, g, GateUpBias, GateBias, UpBias)
  {
    ThreeFused(w, g, QkvWeight, QWeight, KWeight, VWeight);
    ThreeFused(w, g, QkvBias, QBias, KBias, VBias);
    TwoFused(w, g, GateUpWeight, GateWeight, UpWeight);
    TwoFused(w, g, GateUpBias, GateBias, UpBias);
  }

  lemma ThreeFused(w: Weights, g: Layer, kind: Kind, a: Part, b: Part, e: Part)
    requires IsFused(kind) && Members(kind) == [a, b, e]
    ensures FusesThree(w, Packed(w, Layers(w)), g, kind, a, b, e)
  {
    PackedLookup(w, Name(Some(g), kind));
    if PartName(g, a) in w && PartName(g, b) in w && PartName(g, e) in w {
      assert PartName(g, a).layer.value in Layers(w);
      JoinedThree(w, g, kind);
    }
    hide Packed, Flatten;
  }

  lemma TwoFused(w: Weights, g: Layer, kind: Kind, a: Part, b: Part)
    requires IsFused(kind) && Members(kind) == [a, b]
    ensures FusesTwo(w, Packed(w, Layers(w)), g, kind, a, b)
  {
    PackedLookup(w, Name(Some(g), kind));
    if PartName(g, a) in w && PartName(g, b) in w {
      assert PartName(g, a).layer.value in Layers(w);
      JoinedTwo(w, g, kind);
    }
    hide Packed, Flatten;
  }

  lemma FlattenThree<T>(a: seq<T>, b: seq<T>, e: seq<T>)
    ensures Flatten([a, b, e]) == a + b + e
  {
    assert Flatten([e]) == e;
    FlattenTwo(b, e);
    assert [a, b, e][1..] == [b, e];
  }

  lemma FlattenTwo<T>(a: seq<T>, b: seq<T>)
    ensures Flatten([a, b]) == a + b
  {
    assert [a, b][1..] == [b] && Flatten([b]) == b;
  }

  /** Packing loses nothing of an unfused checkpoint: unpacking gives every weight back under its own name. */
  lemma PackUnpack(c: Heads, w: Weights, n: Name)
    requires Unfused(c, w)
    ensures UnpackedAt(c, Packed(w, Layers(w)), n) == Lookup(w, n)
  {
    hide Unfused, PartRange, Joined, Packed;
    var p := Packed(w, Layers(w));
    assert Lookup(p, n) == PackedAt(w, Layers(w), n);
    if n.layer.Some? && n.kind.Single? {
      PartUnpack(c, w, n.layer.value, n.kind.part);
    } else if n.layer.Some? && IsFused(n.kind) {
      NotFused(c, w, n);
    }
  }

  lemma NotFused(c: Heads, w: Weights, n: Name)
    requires Unfused(c, w) && n.layer.Some? && IsFused(n.kind)
    ensures n !in w
  {
  }

  lemma PartUnpack(c: Heads, w: Weights, g: Layer, part: Part)
    requires Unfused(c, w)
    ensures UnpackedAt(c, Packed(w, Layers(w)), PartName(g, part)) == Lookup(w, PartName(g, part))
  {
    var n, fused := PartName(g, part), Name(Some(g), FusedOf(part));
    assert c.heads > 0;
    PackedLookup(w, n);
    PackedLookup(w, fused);
    NotFused(c, w, fused);
    if n in w {
      PartBack(c, w, g, part);
      FusedThere(w, g, part);
    } else {
      NothingThere(w, g, part);
    }
    hide Unfused, PartRange, Joined, Packed, AllPresent, FusedOf, Mul, Layers, PackedAt, Slice;
  }

  lemma FusedThere(w: Weights, g: Layer, part: Part)
    requires PartName(g, part) in w && AllPresent(w, g, FusedOf(part))
    ensures PackedAt(w, Layers(w), Name(Some(g), FusedOf(part))) == Some(Joined(w, g, FusedOf(part)))
  {
    assert PartName(g, part).layer.value in Layers(w);
    hide Joined, AllPresent, Members;
  }

  lemma NothingThere(w: Weights, g: Layer, part: Part)
    requires PartName(g, part) !in w && Name(Some(g), FusedOf(part)) !in w
    ensures PackedAt(w, Layers(w), Name(Some(g), FusedOf(part))) == None
    ensures PackedAt(w, Layers(w), PartName(g, part)) == None
  {
    NotComplete(w, g, part);
    hide Joined, AllPresent, Members;
  }

  lemma PackedLookup(w: Weights, n: Name)
    ensures Lookup(Packed(w, Layers(w)), n) == PackedAt(w, Layers(w), n)
  {
  }

  lemma NotComplete(w: Weights, g: Layer, part: Part)
    requires PartName(g, part) !in w
    ensures !AllPresent(w, g, FusedOf(part))
  {
    var i :| 0 <= i < |Members(FusedOf(part))| && Members(FusedOf(part))[i] == part;
  }

  /** A projection survives packing exactly when its whole group is there: the members of an incomplete group are
      deleted without a trace. */
  lemma SurvivesIff(w: Weights, g: Layer, part: Part)
    requires PartName(g, part) in w && Name(Some(g), FusedOf(part)) !in w
    ensures PartName(g, part) !in Packed(w, Layers(w))
    ensures Name(Some(g), FusedOf(part)) in Packed(w, Layers(w)) <==> AllPresent(w, g, FusedOf(part))
  {
    var p := Packed(w, Layers(w));
    assert g in Layers(w) by {
      assert PartName(g, part).layer.value == g;
    }
    assert Lookup(p, PartName(g, part)) == PackedAt(w, Layers(w), PartName(g, part));
    assert Lookup(p, Name(Some(g), FusedOf(part))) == PackedAt(w, Layers(w), Name(Some(g), FusedOf(part)));
  }

  /** A checkpoint with a lone query projection is packed to nothing. */
  lemma LoneQueryLost(g: Layer, t: Tensor)
    ensures var w: Weights := map[PartName(g, QWeight) := t]; Packed(w, Layers(w)) == map[]
  {
    var w: Weights := map[PartName(g, QWeight) := t];
    var p := Packed(w, Layers(w));
    forall n ensures Lookup(p, n) == None {
      assert Lookup(p, n) == PackedAt(w, Layers(w), n);
      if n.layer == Some(g) {
        assert PartName(g, QWeight).layer.value in Layers(w);
        assert PartName(g, Members(QkvWeight)[1]) !in w;
        LoneNoGroup(w, g, n.kind);
      } else {
        assert n !in w;
      }
    }
    SameLookups(p, map[]);
  }

  lemma LoneNoGroup(w: Weights, g: Layer, kind: Kind)
    requires forall n :: n in w ==> n == PartName(g, QWeight)
    ensures IsFused(kind) ==> !AllPresent(w, g, kind)
  {
    if IsFused(kind) {
      assert |Members(kind)| >= 2 && Members(kind)[1] != QWeight;
      assert PartName(g, Members(kind)[1]) !in w;
    }
  }
}

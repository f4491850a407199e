/** When a printed diff replays: exactly when it adds no top-level key and its paths can be read back. */
module PatchInverse {
  import opened Prelude
  import Pointer
  import opened Patch

  // ---- where a diff acts ----

  /** The value at the end of an object path. */
  ghost function At(root: Json, keys: seq<string>): Option<Json> {
    if keys == [] then Some(root)
    else if root.Object? && keys[0] in root.fields then At(root.fields[keys[0]], keys[1..])
    else None
  }

  /** The trees differ at `keys`; they are both objects before that place, but not both there. */
  ghost predicate ChangedAt(before: Json, after: Json, keys: seq<string>) {
    if keys == [] then before != after && !(before.Object? && after.Object?)
    else
      && before.Object? && after.Object?
      && if keys[0] in before.fields && keys[0] in after.fields
         then ChangedAt(before.fields[keys[0]], after.fields[keys[0]], keys[1..])
         else |keys| == 1 && (keys[0] in before.fields || keys[0] in after.fields)
  }

  lemma {:induction false} ChangedDiffers(before: Json, after: Json, keys: seq<string>)
    requires ChangedAt(before, after, keys)
    ensures At(before, keys) != At(after, keys)
  {
    if keys != [] && keys[0] in before.fields && keys[0] in after.fields {
      ChangedDiffers(before.fields[keys[0]], after.fields[keys[0]], keys[1..]);
    } else if keys != [] {
      assert keys[1..] == [];
    }
  }

  /** No operation acts above the place of another one. */
  lemma {:induction false} ChangesApart(before: Json, after: Json, above: seq<string>, keys: seq<string>)
    requires ChangedAt(before, after, above) && ChangedAt(before, after, keys) && above <= keys
    ensures above == keys
  {
    if above != [] && keys[0] in before.fields && keys[0] in after.fields {
      assert above[0] == keys[0] && above[1..] <= keys[1..];
      ChangesApart(before.fields[keys[0]], after.fields[keys[0]], above[1..], keys[1..]);
      assert above == [above[0]] + above[1..] && keys == [keys[0]] + keys[1..];
    }
  }

  /** Every printed operation names a place where the trees differ. */
  lemma {:induction false} DiffLocation(before: Json, after: Json, prefix: seq<string>, op: ChangeOp) returns (keys: seq<string>)
    requires op in Diff(before, after, Pointer.PrintPointer(prefix))
    ensures op.path == Pointer.PrintPointer(prefix + keys) && ChangedAt(before, after, keys)
    decreases before, 1, 0
  {
    hide Pointer.PrintPointer;
    if before.Object? && after.Object? {
      keys := DiffKeysLocation(before, after, prefix, SortedKeys(before.fields.Keys + after.fields.Keys), op);
    } else {
      keys := [];
      assert prefix + keys == prefix;
    }
  }

  lemma {:induction false} DiffKeysLocation(before: Json, after: Json, prefix: seq<string>, order: seq<string>, op: ChangeOp)
    returns (keys: seq<string>)
    requires before.Object? && after.Object?
    requires forall k | k in order :: k in before.fields || k in after.fields
    requires op in DiffKeys(before, after, Pointer.PrintPointer(prefix), order)
    ensures op.path == Pointer.PrintPointer(prefix + keys) && ChangedAt(before, after, keys)
    decreases before, 0, |order|
  {
    hide Pointer.PrintPointer;
    if op in DiffKey(before, after, Pointer.PrintPointer(prefix), order[0]) {
      keys := DiffKeyLocation(before, after, prefix, order[0], op);
    } else {
      keys := DiffKeysLocation(before, after, prefix, order[1..], op);
    }
  }

  lemma {:induction false} DiffKeyLocation(before: Json, after: Json, prefix: seq<string>, key: string, op: ChangeOp)
    returns (keys: seq<string>)
    requires before.Object? && after.Object?
    requires key in before.fields || key in after.fields
    requires op in DiffKey(before, after, Pointer.PrintPointer(prefix), key)
    ensures op.path == Pointer.PrintPointer(prefix + keys) && ChangedAt(before, after, keys)
    decreases before, 0, 0
  {
    hide Pointer.PrintPointer;
    PrintExtended(prefix, key);
    if key in before.fields && key in after.fields {
      var rest := DiffLocation(before.fields[key], after.fields[key], prefix + [key], op);
      keys := [key] + rest;
      assert prefix + [key] + rest == prefix + keys && keys[1..] == rest;
    } else {
      keys := [key];
    }
  }

  // ---- what a misread path does ----

  predicate Comparable(a: seq<string>, b: seq<string>) {
    a <= b || b <= a
  }

  /** An edit leaves every place alone that is not on its path, above it or below it. */
  lemma {:induction false} EditElsewhere(root: Json, parts: seq<string>, op: ChangeOp, keys: seq<string>)
    requires parts != [] && EditAt(root, parts, op).Ok? && !Comparable(parts, keys)
    ensures At(EditAt(root, parts, op).value, keys) == At(root, keys)
  {
    if |parts| > 1 && parts[0] == keys[0] {
      assert parts == [parts[0]] + parts[1..] && keys == [keys[0]] + keys[1..];
      EditElsewhere(Child(root, parts[0]).value, parts[1..], op, keys[1..]);
    } else {
      assert |parts| == 1 ==> parts[0] != keys[0];
    }
  }

  /** The operation is refused or acts elsewhere. */
  predicate Misses(op: ChangeOp, keys: seq<string>) {
    match Pointer.ParsePointer(op.path)
    case None => true
    case Some(parts) => !Comparable(parts, keys)
  }

  lemma {:induction false} ReplayElsewhere(root: Json, ops: seq<ChangeOp>, keys: seq<string>)
    requires root.Object? && ApplyAll(root, ops).Ok? && forall op | op in ops :: Misses(op, keys)
    ensures At(ApplyAll(root, ops).value, keys) == At(root, keys)
    decreases |ops|
  {
    if ops != [] {
      ApplyOpKeepsObject(root, ops[0]);
      assert Misses(ops[0], keys);
      EditElsewhere(root, Pointer.ParsePointer(ops[0].path).value, ops[0], keys);
      ReplayElsewhere(ApplyOp(root, ops[0]).value, ops[1..], keys);
    }
  }

  function Total(keys: seq<string>): nat {
    if keys == [] then 0 else |keys[0]| + Total(keys[1..])
  }

  /** Read back, a path has as many keys as were printed, each one percent-decoded. */
  ghost predicate ReadsAs(keys: seq<string>, parts: seq<string>) {
    |parts| == |keys| && forall i | 0 <= i < |keys| :: Pointer.PathUnescape(keys[i]) == Some(parts[i])
  }

  lemma {:induction false} PartsReadAs(keys: seq<string>)
    ensures Pointer.DecodeParts(Pointer.EscapeAll(keys)).Some? ==>
              ReadsAs(keys, Pointer.DecodeParts(Pointer.EscapeAll(keys)).value)
  {
    hide Pointer.EscapeToken, Pointer.UnescapeToken, Pointer.PathUnescape;
    if keys != [] {
      PartsReadAs(keys[1..]);
      Pointer.TokenRoundTrip(keys[0]);
      var printed := Pointer.EscapeAll(keys);
      assert printed[0] == Pointer.EscapeToken(keys[0]) && printed[1..] == Pointer.EscapeAll(keys[1..]);
      assert Pointer.DecodePart(printed[0]) == Pointer.PathUnescape(keys[0]);
      assert forall i | 0 < i < |keys| :: keys[i] == keys[1..][i - 1];
    }
  }

  lemma PathReadsAs(keys: seq<string>)
    requires keys != []
    ensures Pointer.ParsePointer(Pointer.PrintPointer(keys)).Some? ==>
              ReadsAs(keys, Pointer.ParsePointer(Pointer.PrintPointer(keys)).value)
  {
    Pointer.SplitPrinted(keys);
    PartsReadAs(keys);
  }

  /** Decoding makes a path shorter whenever it changes anything. */
  lemma {:induction false} ReadingShrinks(keys: seq<string>, parts: seq<string>)
    requires ReadsAs(keys, parts)
    ensures Total(parts) <= Total(keys)
    ensures Pointer.PercentFree(keys) ==> parts == keys
    ensures !Pointer.PercentFree(keys) ==> Total(parts) < Total(keys)
  {
    if keys != [] {
      Pointer.PathUnescapeShrinks(keys[0]);
      ReadingShrinks(keys[1..], parts[1..]);
      assert keys == [keys[0]] + keys[1..] && parts == [parts[0]] + parts[1..];
      assert forall k :: k in keys <==> k == keys[0] || k in keys[1..];
    }
  }

  lemma {:induction false} Largest<T>(s: set<T>, f: T -> int) returns (m: T)
    requires s != {}
    ensures m in s && forall x | x in s :: f(x) <= f(m)
  {
    m :| m in s;
    if s != {m} {
      var rest := s - {m};
      assert s == rest + {m};
      var other := Largest(rest, f);
      if f(m) < f(other) { m := other; }
    }
  }

  /** Of the misread places the one that nothing is read as: among the least deep, the longest printed. */
  lemma NeverReached(places: set<seq<string>>) returns (keys: seq<string>)
    requires exists l :: l in places && !Pointer.PercentFree(l)
    ensures keys in places && !Pointer.PercentFree(keys)
    ensures forall l, parts | l in places && !Pointer.PercentFree(l) && ReadsAs(l, parts) :: !Comparable(parts, keys)
  {
    hide Pointer.PathUnescape;
    var misread := set l | l in places && !Pointer.PercentFree(l);
    var first :| first in places && !Pointer.PercentFree(first);
    assert first in misread;
    var shallow := Largest(misread, (l: seq<string>) => -|l|);
    var d := |shallow|;
    var near := set l | l in misread && !Pointer.PercentFree(l[..d]);
    assert shallow[..d] == shallow && shallow in near;
    var size := (l: seq<string>) => if |l| >= d then Total(l[..d]) else 0;
    keys := Largest(near, size);
    forall l, parts | l in places && !Pointer.PercentFree(l) && ReadsAs(l, parts) ensures !Comparable(parts, keys) {
      assert l in misread && keys in misread && keys in places && |l| >= d && |keys| >= d;
      assert l in near ==> size(l) <= size(keys);
      if Comparable(parts, keys) {
        assert parts[..d] == keys[..d];
        assert ReadsAs(l[..d], parts[..d]);
        ReadingShrinks(l[..d], parts[..d]);
      }
    }
  }

  /** A diff with a path that contains '%' does not replay. */
  lemma MisreadDiffFails(before: Json, after: Json)
    requires before.Object? && after.Object? && !Plain(Diff(before, after, ""))
    ensures ApplyAll(before, Diff(before, after, "")) != Ok(after)
  {
    hide Diff, Pointer.PrintPointer, Pointer.ParsePointer, Pointer.PercentFree, ApplyAll, At, ChangedAt, ReadsAs, Comparable;
    var ops := Diff(before, after, "");
    var places := set op | op in ops :: Place(before, after, op);
    var bad :| bad in ops && '%' in bad.path;
    PlaceOf(before, after, bad);
    assert Place(before, after, bad) in places;
    var keys := NeverReached(places);
    if ApplyAll(before, ops).Ok? {
      var at :| at in ops && Place(before, after, at) == keys;
      PlaceOf(before, after, at);
      forall op | op in ops ensures Misses(op, keys) {
        PlaceOf(before, after, op);
        assert Place(before, after, op) in places;
        MissesPlace(before, after, op, keys);
      }
      ReplayElsewhere(before, ops, keys);
      ChangedDiffers(before, after, keys);
    }
  }

  /** The place an operation was printed for. */
  ghost function Place(before: Json, after: Json, op: ChangeOp): seq<string> {
    if exists keys :: PrintedFor(before, after, op, keys) then
      var keys :| PrintedFor(before, after, op, keys); keys
    else []
  }

  ghost predicate PrintedFor(before: Json, after: Json, op: ChangeOp, keys: seq<string>) {
    op.path == Pointer.PrintPointer(keys) && ChangedAt(before, after, keys)
  }

  lemma PlaceOf(before: Json, after: Json, op: ChangeOp)
    requires before.Object? && after.Object? && op in Diff(before, after, "")
    ensures PrintedFor(before, after, op, Place(before, after, op)) && Place(before, after, op) != []
    ensures '%' in op.path <==> !Pointer.PercentFree(Place(before, after, op))
  {
    hide Diff, Pointer.PercentFree;
    assert Pointer.PrintPointer([]) == "";
    var keys := DiffLocation(before, after, [], op);
    assert [] + keys == keys;
    assert PrintedFor(before, after, op, keys);
    Pointer.PrintedPercent(Place(before, after, op));
  }

  lemma MissesPlace(before: Json, after: Json, op: ChangeOp, keys: seq<string>)
    requires ChangedAt(before, after, keys) && !Pointer.PercentFree(keys)
    requires PrintedFor(before, after, op, Place(before, after, op)) && Place(before, after, op) != []
    requires forall parts | !Pointer.PercentFree(Place(before, after, op)) && ReadsAs(Place(before, after, op), parts) ::
               !Comparable(parts, keys)
    ensures Misses(op, keys)
  {
    hide Pointer.PrintPointer, Pointer.ParsePointer, ReadsAs;
    var l := Place(before, after, op);
    PathReadsAs(l);
    if Pointer.PercentFree(l) {
      Pointer.PointerRoundTrip(l);
      assert keys <= l ==> forall k | k in keys :: k in l;
      if l <= keys {
        ChangesApart(before, after, l, keys);
      }
    }
  }

  // ---- the two together ----

  /**
   * Diff and patch are inverse, for any two objects, exactly when `after` adds no top-level key and no
   * printed path contains '%'. The diff is empty exactly when nothing changed.
   */
  lemma DiffPatchInverse(before: Json, after: Json)
    requires before.Object? && after.Object?
    ensures ApplyAll(before, Diff(before, after, "")) == Ok(after)
            <==> after.fields.Keys <= before.fields.Keys && Plain(Diff(before, after, ""))
    ensures Plain(Diff(before, after, "")) ==>
              (ApplyAll(before, Diff(before, after, "")).Ok? <==> after.fields.Keys <= before.fields.Keys)
    ensures Diff(before, after, "") == [] <==> before == after
  {
    DiffEmptyOnlyIfEqual(before, after, "");
    if Plain(Diff(before, after, "")) {
      PlainDiffReplays(before, after);
    } else {
      MisreadDiffFails(before, after);
    }
  }

  /**
   * The diff stored with a change replays the active config to the candidate, whatever operations the
   * author sent, exactly when its paths can be read back: a typed config always has the same top-level keys.
   */
  lemma StoredDiffReplays(active: Json, ops: seq<ChangeOp>, canonical: Json -> Option<Json>)
    requires active.Object? && Candidate(active, ops, canonical).Some?
    requires var built := Candidate(active, ops, canonical).value;
             built.Object? && built.fields.Keys == active.fields.Keys
    ensures var built := Candidate(active, ops, canonical).value;
            ApplyAll(active, Diff(active, built, "")) == Ok(built) <==> Plain(Diff(active, built, ""))
  {
    DiffPatchInverse(active, Candidate(active, ops, canonical).value);
  }

  // ---- a diff that does not replay ----

  lemma OneSortedKey(key: string)
    ensures SortedKeys({key}) == [key]
  {
    var keys := SortedKeys({key});
    assert |keys| == 1 && keys[0] in keys;
  }

  /** The diff of two objects that both have the one key `key`. */
  lemma DiffOneKey(key: string, before: Json, after: Json, path: string)
    requires before != after
    ensures Diff(Object(map[key := before]), Object(map[key := after]), path)
            == Diff(before, after, path + "/" + Pointer.EscapeToken(key))
  {
    var a, b := Object(map[key := before]), Object(map[key := after]);
    assert a.fields[key] != b.fields[key];
    assert a.fields.Keys + b.fields.Keys == {key};
    OneSortedKey(key);
    var order := [key];
    assert order[1..] == [] && SortedKeys(a.fields.Keys + b.fields.Keys) == order;
    var ops := Diff(before, after, path + "/" + Pointer.EscapeToken(key));
    assert DiffKey(a, b, path, key) == ops;
    assert DiffKeys(a, b, path, []) == [];
    assert DiffKeys(a, b, path, order) == ops + [];
    assert ops + [] == ops;
  }

  /**
   * The smallest failure: below the top level the printed pointer of the key "%41" names the key "A", so
   * the diff of two configs with the same keys does not replay.
   */
  lemma PercentKeyBreaksReplay()
    ensures var before := Object(map["x" := Object(map["%41" := Number(1.0)])]);
            var after := Object(map["x" := Object(map["%41" := Number(2.0)])]);
            ApplyAll(before, Diff(before, after, "")) == Err(UpdateMissing)
  {
    hide Diff, Pointer.EscapeToken, Pointer.PrintPointer, EditAt;
    var one, two := Number(1.0), Number(2.0);
    var inner, inner' := Object(map["%41" := one]), Object(map["%41" := two]);
    assert inner.fields["%41"] != inner'.fields["%41"];
    DiffOneKey("x", inner, inner', "");
    DiffOneKey("%41", one, two, "" + "/" + Pointer.EscapeToken("x"));
    var path := "" + "/" + Pointer.EscapeToken("x") + "/" + Pointer.EscapeToken("%41");
    DiffOfLeaves(one, two, path);
    PathOfTwo("x", "%41");
    Pointer.PercentPathIsMisread();
    EditMissing(inner, ChangeOp(UpdateOp, path, two, one));
    var op := ChangeOp(UpdateOp, path, two, one);
    assert [op][0] == op;
  }

  lemma DiffOfLeaves(before: Json, after: Json, path: string)
    requires before != after && !before.Object?
    ensures Diff(before, after, path) == [ChangeOp(UpdateOp, path, after, before)]
  {
  }

  lemma EditMissing(inner: Json, op: ChangeOp)
    requires inner.Object? && "A" !in inner.fields && op.kind == UpdateOp
    ensures EditAt(Object(map["x" := inner]), ["x", "A"], op) == Err(UpdateMissing)
  {
    var parts := ["x", "A"];
    assert parts[1..] == ["A"];
    assert EditAt(inner, ["A"], op) == Err(UpdateMissing);
  }

  lemma PathOfTwo(a: string, b: string)
    ensures Pointer.PrintPointer([a, b]) == "" + "/" + Pointer.EscapeToken(a) + "/" + Pointer.EscapeToken(b)
  {
    hide Pointer.EscapeToken;
    assert [a, b] == [a] + [b];
    PrintExtended([a], b);
    PrintExtended([], a);
    assert [] + [a] == [a];
  }

}

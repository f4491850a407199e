/** The change engine: pointer operations edit a JSON tree, and a tree diff prints such operations. */
module Patch {
  import opened Prelude
  import Pointer

  datatype Json =
    | Null
    | Bool(b: bool)
    | Number(n: real)
    | Text(s: string)
    | Array(items: seq<Json>)
    | Object(fields: map<string, Json>)

  datatype OpType = SetOp | AddOp | UpdateOp | DeleteOp | OtherOp(name: string)

  datatype ChangeOp = ChangeOp(kind: OpType, path: string, value: Json, before: Json)

  datatype EditError =
    | BadPath
    | OutsideModel
    | MissingSegment
    | BadIndex
    | NotAContainer
    | DeleteMissing
    | UpdateMissing
    | AddExisting
    | ArrayAddDelete

  datatype Result<+T> = Ok(value: T) | Err(error: EditError)

  // ---- applying one operation ----

  /** `strconv.Atoi` on the inputs an index can have: an optional sign and decimal digits. */
  function Atoi(s: string): Option<int> {
    if s == [] then None
    else if s[0] == '-' then
      match Digits(s[1..], 0) case None => None case Some(n) => Some(-n)
    else if s[0] == '+' then Digits(s[1..], 0)
    else Digits(s, 0)
  }

  function Digits(s: string, acc: int): Option<int> {
    if s == [] then None
    else if !('0' <= s[0] <= '9') then None
    else
      var next := acc * 10 + (s[0] as int - '0' as int);
      if |s| == 1 then Some(next) else Digits(s[1..], next)
  }

  function Index(items: seq<Json>, key: string): Result<nat> {
    match Atoi(key)
    case None => Err(BadIndex)
    case Some(i) => if 0 <= i < |items| then Ok(i) else Err(BadIndex)
  }

  function Child(node: Json, key: string): Result<Json> {
    match node
    case Object(fields) => if key in fields then Ok(fields[key]) else Err(MissingSegment)
    case Array(items) =>
      (match Index(items, key)
       case Err(e) => Err(e)
       case Ok(i) => assert i < |items|; Ok(items[i]))
    case _ => Err(NotAContainer)
  }

  function WithChild(node: Json, key: string, child: Json): Json
    requires Child(node, key).Ok?
  {
    match node
    case Object(fields) => Object(fields[key := child])
    case Array(items) => Array(items[Index(items, key).value := child])
  }

  /** The container a pointer prefix leads to: what the loop of `pointerParent` computes. */
  function Resolve(root: Json, parts: seq<string>): Result<Json> {
    if parts == [] then Ok(root)
    else
      match Child(root, parts[0])
      case Err(e) => Err(e)
      case Ok(next) => Resolve(next, parts[1..])
  }

  method PointerParent(root: Json, parts: seq<string>) returns (found: Result<Json>)
    ensures found == Resolve(root, parts)
  {
    var cur := root;
    var i := 0;
    assert parts[0..] == parts;
    while i < |parts|
      invariant 0 <= i <= |parts|
      invariant Resolve(root, parts) == Resolve(cur, parts[i..])
    {
      var part := parts[i];
      assert parts[i..][0] == part && parts[i..][1..] == parts[i + 1..];
      match cur {
        case Object(fields) =>
          if part !in fields {
            return Err(MissingSegment);
          }
          cur := fields[part];
        case Array(items) =>
          var index := Atoi(part);
          if index.None? {
            return Err(BadIndex);
          }
          if index.value < 0 || index.value >= |items| {
            return Err(BadIndex);
          }
          cur := items[index.value];
        case _ =>
          return Err(NotAContainer);
      }
      i := i + 1;
    }
    found := Ok(cur);
  }

  /** The edit itself, on the container that holds the addressed key. */
  function EditContainer(parent: Json, key: string, op: ChangeOp): Result<Json> {
    match parent
    case Object(fields) =>
      if op.kind == DeleteOp then
        if key !in fields then Err(DeleteMissing) else Ok(Object(fields - {key}))
      else if op.kind == UpdateOp && key !in fields then Err(UpdateMissing)
      else if op.kind == AddOp && key in fields then Err(AddExisting)
      else Ok(Object(fields[key := op.value]))
    case Array(items) =>
      if op.kind == AddOp || op.kind == DeleteOp then Err(ArrayAddDelete)
      else
        (match Index(items, key)
         case Err(e) => Err(e)
         case Ok(i) => Ok(Array(items[i := op.value])))
    case _ => Err(NotAContainer)
  }

  /** The tree after editing the addressed container in place. */
  function EditAt(root: Json, parts: seq<string>, op: ChangeOp): Result<Json>
    requires parts != []
  {
    if |parts| == 1 then EditContainer(root, parts[0], op)
    else
      match Child(root, parts[0])
      case Err(e) => Err(e)
      case Ok(child) =>
        match EditAt(child, parts[1..], op)
        case Err(e) => Err(e)
        case Ok(edited) => Ok(WithChild(root, parts[0], edited))
  }

  /** `applyConfigOperation` on the fields of the candidate object. */
  function ApplyOp(candidate: Json, op: ChangeOp): Result<Json>
    requires candidate.Object?
  {
    match Pointer.ParsePointer(op.path)
    case None => Err(BadPath)
    case Some(parts) =>
      if parts == [] || parts[0] !in candidate.fields then Err(OutsideModel)
      else EditAt(candidate, parts, op)
  }

  lemma ApplyOpKeepsObject(candidate: Json, op: ChangeOp)
    requires candidate.Object?
    ensures ApplyOp(candidate, op).Ok? ==> ApplyOp(candidate, op).value.Object?
  {
  }

  /** Operations applied in order; the first refusal ends the replay. */
  function ApplyAll(candidate: Json, ops: seq<ChangeOp>): Result<Json>
    requires candidate.Object?
    decreases |ops|
  {
    if ops == [] then Ok(candidate)
    else
      match ApplyOp(candidate, ops[0])
      case Err(e) => Err(e)
      case Ok(next) => ApplyOpKeepsObject(candidate, ops[0]); ApplyAll(next, ops[1..])
  }

  lemma {:induction false} ApplyAllConcat(candidate: Json, first: seq<ChangeOp>, second: seq<ChangeOp>)
    requires candidate.Object?
    ensures ApplyAll(candidate, first).Ok? ==> ApplyAll(candidate, first).value.Object?
    ensures ApplyAll(candidate, first + second) ==
            (match ApplyAll(candidate, first) case Err(e) => Err(e) case Ok(mid) => ApplyAll(mid, second))
    decreases |first|
  {
    if first == [] {
      assert first + second == second;
    } else {
      assert (first + second)[0] == first[0] && (first + second)[1..] == first[1..] + second;
      ApplyOpKeepsObject(candidate, first[0]);
      if ApplyOp(candidate, first[0]).Ok? {
        ApplyAllConcat(ApplyOp(candidate, first[0]).value, first[1..], second);
      }
    }
  }

  // ---- printing a diff ----

  /** `diffJSON`: the pointer operations that turn `before` into `after`. */
  ghost function Diff(before: Json, after: Json, path: string): seq<ChangeOp>
    decreases before, 1, 0
  {
    if before == after then []
    else if before.Object? && after.Object? then
      DiffKeys(before, after, path, SortedKeys(before.fields.Keys + after.fields.Keys))
    else [ChangeOp(UpdateOp, path, after, before)]
  }

  ghost function DiffKeys(before: Json, after: Json, path: string, keys: seq<string>): seq<ChangeOp>
    requires before.Object? && after.Object?
    requires forall k | k in keys :: k in before.fields || k in after.fields
    decreases before, 0, |keys|
  {
    if keys == [] then []
    else DiffKey(before, after, path, keys[0]) + DiffKeys(before, after, path, keys[1..])
  }

  ghost function DiffKey(before: Json, after: Json, path: string, key: string): seq<ChangeOp>
    requires before.Object? && after.Object?
    requires key in before.fields || key in after.fields
    decreases before, 0, 0
  {
    var child := path + "/" + Pointer.EscapeToken(key);
    if key !in after.fields then [ChangeOp(DeleteOp, child, Null, before.fields[key])]
    else if key !in before.fields then [ChangeOp(AddOp, child, after.fields[key], Null)]
    else Diff(before.fields[key], after.fields[key], child)
  }

  /** No printed path contains '%'. */
  predicate Plain(ops: seq<ChangeOp>) {
    forall op | op in ops :: '%' !in op.path
  }

  lemma {:induction false} DiffEmptyOnlyIfEqual(before: Json, after: Json, path: string)
    ensures Diff(before, after, path) == [] <==> before == after
    decreases before, 1, 0
  {
    if before != after && before.Object? && after.Object? {
      var keys := SortedKeys(before.fields.Keys + after.fields.Keys);
      assert before.fields == after.fields ==> before == after;
      if DiffKeys(before, after, path, keys) == [] {
        forall k | k in keys
          ensures k in before.fields && k in after.fields && before.fields[k] == after.fields[k]
        {
          DiffKeysEmpty(before, after, path, keys, k);
        }
        assert false;
      }
    }
  }

  lemma {:induction false} DiffKeysEmpty(before: Json, after: Json, path: string, keys: seq<string>, key: string)
    requires before.Object? && after.Object?
    requires forall k | k in keys :: k in before.fields || k in after.fields
    requires DiffKeys(before, after, path, keys) == [] && key in keys
    ensures key in before.fields && key in after.fields && before.fields[key] == after.fields[key]
    decreases before, 0, |keys|
  {
    assert DiffKey(before, after, path, keys[0]) == [];
    if key == keys[0] {
      var child := path + "/" + Pointer.EscapeToken(key);
      DiffEmptyOnlyIfEqual(before.fields[key], after.fields[key], child);
    } else {
      DiffKeysEmpty(before, after, path, keys[1..], key);
    }
  }

  // ---- replaying a diff ----

  /** `keys` leads through objects only. */
  ghost predicate HasPath(root: Json, keys: seq<string>) {
    keys == [] || (root.Object? && keys[0] in root.fields && HasPath(root.fields[keys[0]], keys[1..]))
  }

  ghost function Get(root: Json, keys: seq<string>): Json
    requires HasPath(root, keys)
  {
    if keys == [] then root else Get(root.fields[keys[0]], keys[1..])
  }

  ghost function Put(root: Json, keys: seq<string>, node: Json): Json
    requires HasPath(root, keys)
  {
    if keys == [] then node
    else Object(root.fields[keys[0] := Put(root.fields[keys[0]], keys[1..], node)])
  }

  lemma {:induction false} PutProperties(root: Json, keys: seq<string>, node: Json, again: Json)
    requires HasPath(root, keys)
    ensures HasPath(Put(root, keys, node), keys)
    ensures Get(Put(root, keys, node), keys) == node
    ensures Put(Put(root, keys, node), keys, again) == Put(root, keys, again)
    ensures Put(root, keys, Get(root, keys)) == root
    ensures root.Object? && (keys != [] || node.Object?) ==> Put(root, keys, node).Object?
    ensures keys != [] ==> Put(root, keys, node).Object? && root.Object?
                           && Put(root, keys, node).fields.Keys == root.fields.Keys
  {
    if keys != [] {
      PutProperties(root.fields[keys[0]], keys[1..], node, again);
      var put := Put(root, keys, node);
      assert put.fields[keys[0] := Put(put.fields[keys[0]], keys[1..], again)]
          == root.fields[keys[0] := Put(root.fields[keys[0]], keys[1..], again)];
      assert root.fields[keys[0] := root.fields[keys[0]]] == root.fields;
    }
  }

  lemma {:induction false} PutExtended(root: Json, keys: seq<string>, key: string, node: Json)
    requires HasPath(root, keys) && Get(root, keys).Object? && key in Get(root, keys).fields
    ensures HasPath(root, keys + [key]) && Get(root, keys + [key]) == Get(root, keys).fields[key]
    ensures Put(root, keys + [key], node) == Put(root, keys, Object(Get(root, keys).fields[key := node]))
  {
    if keys == [] {
      assert keys + [key] == [key];
      assert [key][1..] == [];
    } else {
      assert (keys + [key])[0] == keys[0] && (keys + [key])[1..] == keys[1..] + [key];
      PutExtended(root.fields[keys[0]], keys[1..], key, node);
    }
  }

  /** Editing below an object path edits the container there and nothing else. */
  lemma {:induction false} EditBelowPath(root: Json, keys: seq<string>, key: string, op: ChangeOp)
    requires HasPath(root, keys)
    ensures var edited := EditContainer(Get(root, keys), key, op);
            EditAt(root, keys + [key], op) ==
            if edited.Err? then edited else Ok(Put(root, keys, edited.value))
  {
    if keys == [] {
      assert keys + [key] == [key];
    } else {
      assert (keys + [key])[0] == keys[0] && (keys + [key])[1..] == keys[1..] + [key];
      EditBelowPath(root.fields[keys[0]], keys[1..], key, op);
    }
  }

  lemma {:induction false} PrintExtended(keys: seq<string>, key: string)
    ensures Pointer.PrintPointer(keys + [key]) == Pointer.PrintPointer(keys) + "/" + Pointer.EscapeToken(key)
  {
    if keys == [] {
      assert keys + [key] == [key] && [key][1..] == [];
      var token := Pointer.EscapeToken(key);
      assert "/" + token + [] == "/" + token && [] + "/" + token == "/" + token;
    } else {
      assert (keys + [key])[0] == keys[0] && (keys + [key])[1..] == keys[1..] + [key];
      PrintExtended(keys[1..], key);
      var head := "/" + Pointer.EscapeToken(keys[0]);
      var tail := "/" + Pointer.EscapeToken(key);
      assert head + (Pointer.PrintPointer(keys[1..]) + "/" + Pointer.EscapeToken(key))
          == (head + Pointer.PrintPointer(keys[1..])) + "/" + Pointer.EscapeToken(key);
    }
  }

  /** One printed operation, applied below `keys`, edits exactly the container at `keys`. */
  lemma ApplyPrinted(root: Json, keys: seq<string>, key: string, op: ChangeOp)
    requires root.Object? && HasPath(root, keys) && Get(root, keys).Object?
    requires Pointer.PercentFree(keys + [key])
    requires op.path == Pointer.PrintPointer(keys) + "/" + Pointer.EscapeToken(key)
    ensures var edited := EditContainer(Get(root, keys), key, op);
            ApplyOp(root, op) ==
            if keys == [] && key !in root.fields then Err(OutsideModel)
            else if edited.Err? then edited else Ok(Put(root, keys, edited.value))
  {
    PrintExtended(keys, key);
    Pointer.PointerRoundTrip(keys + [key]);
    EditBelowPath(root, keys, key, op);
    assert keys != [] ==> (keys + [key])[0] == keys[0];
  }

  /** The object reached after the listed keys have been brought from `current` to `after`. */
  ghost function Merged(current: map<string, Json>, after: map<string, Json>, keys: seq<string>): map<string, Json>
    decreases |keys|
  {
    if keys == [] then current
    else
      var next := if keys[0] in after then current[keys[0] := after[keys[0]]] else current - {keys[0]};
      Merged(next, after, keys[1..])
  }

  lemma {:induction false} MergedValue(current: map<string, Json>, after: map<string, Json>, keys: seq<string>, key: string)
    ensures var merged := Merged(current, after, keys);
            if key in keys then (key in merged <==> key in after) && (key in after ==> merged[key] == after[key])
            else (key in merged <==> key in current) && (key in current ==> merged[key] == current[key])
    decreases |keys|
  {
    if keys != [] {
      var next := if keys[0] in after then current[keys[0] := after[keys[0]]] else current - {keys[0]};
      MergedValue(next, after, keys[1..], key);
    }
  }

  lemma MergedAll(before: map<string, Json>, after: map<string, Json>, keys: seq<string>)
    requires forall k | k in before || k in after :: k in keys
    ensures Merged(before, after, keys) == after
  {
    var merged := Merged(before, after, keys);
    forall k
      ensures (k in merged <==> k in after) && (k in after ==> merged[k] == after[k])
    {
      MergedValue(before, after, keys, k);
    }
  }

  ghost predicate Agrees(current: map<string, Json>, before: map<string, Json>, keys: seq<string>) {
    forall k | k in keys :: (k in current <==> k in before) && (k in before ==> current[k] == before[k])
  }

  /** The tree at `keys` is brought from `before` to `after`, whatever surrounds it. */
  lemma {:induction false} DiffReplays(root: Json, keys: seq<string>, before: Json, after: Json)
    requires root.Object? && HasPath(root, keys) && Get(root, keys) == before
    requires keys != [] && Plain(Diff(before, after, Pointer.PrintPointer(keys)))
    ensures ApplyAll(root, Diff(before, after, Pointer.PrintPointer(keys))) == Ok(Put(root, keys, after))
    decreases before, 1, 0
  {
    hide Pointer.PrintPointer, Pointer.PercentFree, Agrees;
    var path := Pointer.PrintPointer(keys);
    PutProperties(root, keys, after, after);
    if before != after {
      if before.Object? && after.Object? {
        var order := SortedKeys(before.fields.Keys + after.fields.Keys);
        forall i, j | 0 <= i < j < |order| ensures order[i] != order[j] {
          SortedKeysDistinct(before.fields.Keys + after.fields.Keys, i, j);
        }
        assert Object(before.fields) == before && Put(root, keys, before) == root;
        DiffKeysReplay(root, keys, before, after, order, before.fields);
        MergedAll(before.fields, after.fields, order);
        assert Object(after.fields) == after;
      } else {
        var parent, key := keys[..|keys| - 1], keys[|keys| - 1];
        assert parent + [key] == keys;
        ParentOfPath(root, parent, key);
        PrintExtended(parent, key);
        var op := ChangeOp(UpdateOp, path, after, before);
        assert op in Diff(before, after, path);
        Pointer.PrintedPercent(keys);
        ApplyPrinted(root, parent, key, op);
        PutExtended(root, parent, key, after);
        assert [op][1..] == [];
      }
    }
  }

  lemma {:induction false} ParentOfPath(root: Json, keys: seq<string>, key: string)
    requires HasPath(root, keys + [key])
    ensures HasPath(root, keys) && Get(root, keys).Object? && key in Get(root, keys).fields
  {
    if keys == [] {
      assert (keys + [key])[0] == key;
    } else {
      assert (keys + [key])[0] == keys[0] && (keys + [key])[1..] == keys[1..] + [key];
      ParentOfPath(root.fields[keys[0]], keys[1..], key);
    }
  }

  /** The loop over the keys of one object, started when the object at `keys` is `current`. */
  lemma {:induction false} DiffKeysReplay(root: Json, keys: seq<string>, before: Json, after: Json,
                                          order: seq<string>, current: map<string, Json>)
    requires root.Object? && HasPath(root, keys) && before.Object? && after.Object?
    requires forall k | k in order :: k in before.fields || k in after.fields
    requires Distinct(order) && Agrees(current, before.fields, order)
    requires Plain(DiffKeys(before, after, Pointer.PrintPointer(keys), order))
    requires keys == [] ==> forall k | k in order :: k in before.fields
    ensures Put(root, keys, Object(current)).Object?
    ensures ApplyAll(Put(root, keys, Object(current)), DiffKeys(before, after, Pointer.PrintPointer(keys), order))
            == Ok(Put(root, keys, Object(Merged(current, after.fields, order))))
    decreases before, 0, |order|
  {
    var here := Put(root, keys, Object(current));
    PutProperties(root, keys, Object(current), Object(current));
    if order != [] {
      var key := order[0];
      assert key in order;
      var next := if key in after.fields then current[key := after.fields[key]] else current - {key};
      DiffKeyReplay(root, keys, before, after, key, current);
      var ops := DiffKey(before, after, Pointer.PrintPointer(keys), key);
      var rest := DiffKeys(before, after, Pointer.PrintPointer(keys), order[1..]);
      ApplyAllConcat(here, ops, rest);
      assert Agrees(next, before.fields, order[1..]) by {
        forall k | k in order[1..] ensures k in order && k != key {
          var i :| 0 <= i < |order[1..]| && order[1..][i] == k;
          assert order[i + 1] == k;
        }
      }
      DiffKeysReplay(root, keys, before, after, order[1..], next);
    }
  }

  /** One key of one object. */
  lemma {:induction false} DiffKeyReplay(root: Json, keys: seq<string>, before: Json, after: Json,
                                         key: string, current: map<string, Json>)
    requires root.Object? && HasPath(root, keys) && before.Object? && after.Object?
    requires key in before.fields || key in after.fields
    requires Agrees(current, before.fields, [key])
    requires Plain(DiffKey(before, after, Pointer.PrintPointer(keys), key))
    requires keys == [] ==> key in before.fields
    ensures Put(root, keys, Object(current)).Object?
    ensures var next := if key in after.fields then current[key := after.fields[key]] else current - {key};
            ApplyAll(Put(root, keys, Object(current)), DiffKey(before, after, Pointer.PrintPointer(keys), key))
            == Ok(Put(root, keys, Object(next)))
    decreases before, 0, 0
  {
    var next := if key in after.fields then current[key := after.fields[key]] else current - {key};
    var here := Put(root, keys, Object(current));
    PutProperties(root, keys, Object(current), Object(next));
    var path := Pointer.PrintPointer(keys);
    var child := path + "/" + Pointer.EscapeToken(key);
    assert key in [key];
    PrintExtended(keys, key);
    if key in before.fields && key in after.fields {
      PutExtended(here, keys, key, after.fields[key]);
      DiffReplays(here, keys + [key], before.fields[key], after.fields[key]);
    } else {
      var op := if key !in after.fields then ChangeOp(DeleteOp, child, Null, before.fields[key])
                else ChangeOp(AddOp, child, after.fields[key], Null);
      assert DiffKey(before, after, path, key) == [op] && op in [op];
      Pointer.PrintedPercent(keys + [key]);
      ApplyPrinted(here, keys, key, op);
      assert [op][1..] == [];
    }
  }

  /** A top-level key that only `after` has: its `add` operation is refused. */
  lemma {:induction false} NewRootKeyRefused(before: Json, after: Json, order: seq<string>, current: map<string, Json>)
    requires before.Object? && after.Object?
    requires forall k | k in order :: k in before.fields || k in after.fields
    requires Distinct(order) && Agrees(current, before.fields, order)
    requires Plain(DiffKeys(before, after, "", order))
    requires exists k :: k in order && k !in before.fields
    ensures ApplyAll(Object(current), DiffKeys(before, after, "", order)).Err?
    decreases |order|
  {
    var key := order[0];
    assert key in order;
    var ops := DiffKey(before, after, "", key);
    var rest := DiffKeys(before, after, "", order[1..]);
    ApplyAllConcat(Object(current), ops, rest);
    if key in before.fields {
      DiffKeyReplay(Object(current), [], before, after, key, current);
      var next := if key in after.fields then current[key := after.fields[key]] else current - {key};
      forall k | k in order[1..] ensures k in order && k != key {
        var i :| 0 <= i < |order[1..]| && order[1..][i] == k;
        assert order[i + 1] == k;
      }
      var missing :| missing in order && missing !in before.fields;
      assert missing in order[1..];
      NewRootKeyRefused(before, after, order[1..], next);
    } else {
      var op := ChangeOp(AddOp, "" + "/" + Pointer.EscapeToken(key), after.fields[key], Null);
      assert ops == [op] && op in ops;
      PrintExtended([], key);
      Pointer.PrintedPercent([] + [key]);
      ApplyPrinted(Object(current), [], key, op);
    }
  }

  /** While no printed path contains '%', a diff replays exactly when `after` adds no top-level key. */
  lemma PlainDiffReplays(before: Json, after: Json)
    requires before.Object? && after.Object? && Plain(Diff(before, after, ""))
    ensures ApplyAll(before, Diff(before, after, "")).Ok? <==> after.fields.Keys <= before.fields.Keys
    ensures after.fields.Keys <= before.fields.Keys ==> ApplyAll(before, Diff(before, after, "")) == Ok(after)
  {
    if before != after {
      var order := SortedKeys(before.fields.Keys + after.fields.Keys);
      forall i, j | 0 <= i < j < |order| ensures order[i] != order[j] {
        SortedKeysDistinct(before.fields.Keys + after.fields.Keys, i, j);
      }
      assert Object(before.fields) == before && Object(after.fields) == after;
      if after.fields.Keys <= before.fields.Keys {
        DiffKeysReplay(before, [], before, after, order, before.fields);
        MergedAll(before.fields, after.fields, order);
      } else {
        var k :| k in after.fields.Keys && k !in before.fields.Keys;
        assert k in order;
        NewRootKeyRefused(before, after, order, before.fields);
      }
    }
  }

  // ---- building a candidate ----

  /** `operationRootAllowed`: the parts of the config a change may touch. */
  predicate RootAllowed(path: string) {
    match Pointer.ParsePointer(path)
    case None => false
    case Some(parts) =>
      if parts == [] then false
      else if parts[0] in {"policy", "routes", "services", "overrides"} then true
      else if |parts| != 2 then false
      else if parts[0] == "storage" then parts[1] in {"state_dir", "database"}
      else if parts[0] == "xray" then
        parts[1] in {"outbound_bundle_sha256", "activation_mode", "subscription_secret_file", "last_good_config"}
      else if parts[0] == "zapret" then
        parts[1] in {"activation_mode", "provider_source", "provider_version", "binary_sha256",
                     "adaptive_enabled", "adaptive_catalog_file", "adaptive_assignments"}
      else if parts[0] == "openwrt" then parts[1] == "flow_offloading_policy"
      else if parts[0] == "geoip" then parts[1] == "database"
      else false
  }

  predicate Admitted(op: ChangeOp) {
    !op.kind.OtherOp? && RootAllowed(op.path) && (op.kind.DeleteOp? || op.value != Null)
  }

  /** The edited tree when every operation is admitted and applies; None otherwise. */
  function Edited(root: Json, ops: seq<ChangeOp>): Option<Json>
    requires root.Object?
  {
    if forall i | 0 <= i < |ops| :: Admitted(ops[i]) then
      match ApplyAll(root, ops) case Err(_) => None case Ok(tree) => Some(tree)
    else None
  }

  /** A typed config: `canonical` decodes, validates and re-encodes a tree, or refuses it. */
  function Candidate(active: Json, ops: seq<ChangeOp>, canonical: Json -> Option<Json>): Option<Json>
    requires active.Object?
  {
    if ops == [] then None
    else match Edited(active, ops) case None => None case Some(tree) => canonical(tree)
  }

  lemma EditedStep(root: Json, ops: seq<ChangeOp>)
    requires root.Object? && ops != []
    ensures Edited(root, ops) ==
            if Admitted(ops[0]) && ApplyOp(root, ops[0]).Ok?
            then (ApplyOpKeepsObject(root, ops[0]); Edited(ApplyOp(root, ops[0]).value, ops[1..]))
            else None
  {
    ApplyOpKeepsObject(root, ops[0]);
    assert (forall i | 0 <= i < |ops| :: Admitted(ops[i]))
      <==> Admitted(ops[0]) && forall i | 0 <= i < |ops[1..]| :: Admitted(ops[1..][i]) by {
      assert forall i | 0 < i < |ops| :: ops[i] == ops[1..][i - 1];
    }
  }

  /** `buildCandidate`: the loop goes on after a refused operation, but one refusal refuses the candidate. */
  method BuildCandidate(active: Json, ops: seq<ChangeOp>, canonical: Json -> Option<Json>)
    returns (built: Option<Json>, noop: bool)
    requires active.Object?
    ensures built == Candidate(active, ops, canonical)
    ensures noop <==> built == Some(active)
  {
    if ops == [] {
      return None, false;
    }
    var candidate := active;
    var refused := false;
    var i := 0;
    assert ops[0..] == ops;
    while i < |ops|
      invariant 0 <= i <= |ops|
      invariant candidate.Object?
      invariant refused ==> Edited(active, ops) == None
      invariant !refused ==> Edited(active, ops) == Edited(candidate, ops[i..])
    {
      var op := ops[i];
      assert ops[i..][0] == op && ops[i..][1..] == ops[i + 1..];
      EditedStep(candidate, ops[i..]);
      ApplyOpKeepsObject(candidate, op);
      if !Admitted(op) {
        refused := true;
      } else {
        var applied := ApplyOp(candidate, op);
        if applied.Ok? {
          candidate := applied.value;
        } else {
          refused := true;
        }
      }
      i := i + 1;
    }
    if refused {
      return None, false;
    }
    assert ops[i..] == [];
    built := canonical(candidate);
    noop := built == Some(active);
  }
}

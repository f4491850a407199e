/** What one operation does to a tree, seen by reading it: its own place, every other place, and its refusals. */
module PatchEffect {
  import opened Prelude
  import Pointer
  import opened Patch

  // ---- reading a tree ----

  /** Where a key leads in a node: to a field, or to an element, however its index is spelled. */
  datatype Place = Field(name: string) | Element(index: nat) | Nowhere

  function PlaceOf(node: Json, key: string): Place {
    match node
    case Object(_) => Field(key)
    case Array(items) =>
      (match Atoi(key)
       case Some(i) => if 0 <= i < |items| then Element(i) else Nowhere
       case None => Nowhere)
    case _ => Nowhere
  }

  /** The value that a list of keys leads to, through objects and array elements. */
  function ReadAt(root: Json, keys: seq<string>): Option<Json> {
    if keys == [] then Some(root)
    else
      match PlaceOf(root, keys[0])
      case Field(name) => if root.Object? && name in root.fields then ReadAt(root.fields[name], keys[1..]) else None
      case Element(i) => if root.Array? && i < |root.items| then ReadAt(root.items[i], keys[1..]) else None
      case Nowhere => None
  }

  lemma ReadOne(node: Json, key: string)
    ensures node.Object? ==> ReadAt(node, [key]) == if key in node.fields then Some(node.fields[key]) else None
    ensures node.Array? && PlaceOf(node, key).Element? ==> ReadAt(node, [key]) == Some(node.items[PlaceOf(node, key).index])
    ensures PlaceOf(node, key).Nowhere? ==> ReadAt(node, [key]) == None
  {
    assert [key][0] == key && [key][1..] == [];
  }

  lemma {:induction false} ReadFurther(root: Json, keys: seq<string>, more: seq<string>)
    ensures ReadAt(root, keys).Some? ==> ReadAt(root, keys + more) == ReadAt(ReadAt(root, keys).value, more)
    ensures ReadAt(root, keys).None? ==> ReadAt(root, keys + more) == None
  {
    if keys == [] {
      assert keys + more == more;
    } else {
      assert (keys + more)[0] == keys[0] && (keys + more)[1..] == keys[1..] + more;
      match PlaceOf(root, keys[0])
      case Field(name) => if name in root.fields { ReadFurther(root.fields[name], keys[1..], more); }
      case Element(i) => ReadFurther(root.items[i], keys[1..], more);
      case Nowhere =>
    }
  }

  /** The keys `q` leave the way of `p` at some node, for another place or for none. */
  ghost predicate Apart(node: Json, p: seq<string>, q: seq<string>)
    decreases |p|
  {
    && p != [] && q != []
    && (PlaceOf(node, p[0]) != PlaceOf(node, q[0])
        || (var child := ReadAt(node, p[..1]); child.Some? && Apart(child.value, p[1..], q[1..])))
  }

  lemma ApartAtOne(node: Json, key: string, q: seq<string>)
    requires Apart(node, [key], q)
    ensures q != [] && PlaceOf(node, key) != PlaceOf(node, q[0])
  {
    assert [key][0] == key && [key][1..] == [];
  }

  /** Two containers of one kind; arrays are as long as each other. */
  ghost predicate SameKind(a: Option<Json>, b: Option<Json>) {
    a.Some? && b.Some?
    && ((a.value.Object? && b.value.Object?) || (a.value.Array? && b.value.Array? && |a.value.items| == |b.value.items|))
  }

  // ---- what an accepted edit does ----

  /** `after` is `before` with exactly the operation carried out at `parts`. */
  ghost predicate Carried(before: Json, after: Json, parts: seq<string>, op: ChangeOp) {
    && (op.kind != DeleteOp ==> ReadAt(after, parts) == Some(op.value))
    && (op.kind == DeleteOp ==> ReadAt(after, parts) == None && ReadAt(before, parts).Some?)
    && (forall q | Apart(before, parts, q) :: ReadAt(after, q) == ReadAt(before, q))
    && (forall k | 0 <= k < |parts| :: SameKind(ReadAt(before, parts[..k]), ReadAt(after, parts[..k])))
  }

  lemma ContainerCarried(parent: Json, key: string, op: ChangeOp)
    requires EditContainer(parent, key, op).Ok?
    ensures Carried(parent, EditContainer(parent, key, op).value, [key], op)
  {
    var after := EditContainer(parent, key, op).value;
    assert [key][..1] == [key] && [key][1..] == [] && [key][..0] == [];
    ReadOne(parent, key);
    ReadOne(after, key);
    forall q | Apart(parent, [key], q) ensures ReadAt(after, q) == ReadAt(parent, q) {
      ApartAtOne(parent, key, q);
    }
  }

  /** A node with one child replaced reads as before everywhere but below that child. */
  lemma ChildReplaced(node: Json, key: string, child: Json)
    requires Child(node, key).Ok?
    ensures var after := WithChild(node, key, child);
            && SameKind(Some(node), Some(after)) && PlaceOf(after, key) == PlaceOf(node, key) != Nowhere
            && ReadAt(node, [key]) == Some(Child(node, key).value) && ReadAt(after, [key]) == Some(child)
            && forall q | q != [] ::
                 && PlaceOf(after, q[0]) == PlaceOf(node, q[0])
                 && (PlaceOf(node, q[0]) != PlaceOf(node, key) ==> ReadAt(after, q) == ReadAt(node, q))
                 && (PlaceOf(node, q[0]) == PlaceOf(node, key) ==>
                       ReadAt(after, q) == ReadAt(child, q[1..]) && ReadAt(node, q) == ReadAt(Child(node, key).value, q[1..]))
  {
    ReadOne(node, key);
    ReadOne(WithChild(node, key, child), key);
  }

  lemma {:induction false} EditCarried(root: Json, parts: seq<string>, op: ChangeOp)
    requires parts != [] && EditAt(root, parts, op).Ok?
    ensures Carried(root, EditAt(root, parts, op).value, parts, op)
  {
    if |parts| == 1 {
      assert parts == [parts[0]];
      ContainerCarried(root, parts[0], op);
    } else {
      hide EditContainer, WithChild, Child;
      var child := Child(root, parts[0]).value;
      var edited := EditAt(child, parts[1..], op).value;
      var after := WithChild(root, parts[0], edited);
      EditCarried(child, parts[1..], op);
      ChildReplaced(root, parts[0], edited);
      assert parts[..1] == [parts[0]];
      forall q | Apart(root, parts, q) ensures ReadAt(after, q) == ReadAt(root, q) {
        if PlaceOf(root, parts[0]) == PlaceOf(root, q[0]) { assert Apart(child, parts[1..], q[1..]); }
      }
      forall k | 0 <= k < |parts| ensures SameKind(ReadAt(root, parts[..k]), ReadAt(after, parts[..k])) {
        if k > 0 {
          assert parts[..k][0] == parts[0] && parts[..k][1..] == parts[1..][..k - 1];
        }
      }
    }
  }

  // ---- when an edit is refused, and why ----

  /** The edit is possible on this container. */
  predicate Possible(parent: Json, key: string, kind: OpType) {
    match parent
    case Object(fields) =>
      (kind.DeleteOp? || kind.UpdateOp? ==> key in fields) && (kind.AddOp? ==> key !in fields)
    case Array(_) => !kind.AddOp? && !kind.DeleteOp? && PlaceOf(parent, key).Element?
    case _ => false
  }

  /** Why it is not: by what the container is, and by the kind of the operation. */
  function WhyNot(parent: Json, kind: OpType): EditError {
    match parent
    case Object(_) => if kind.DeleteOp? then DeleteMissing else if kind.UpdateOp? then UpdateMissing else AddExisting
    case Array(_) => if kind.AddOp? || kind.DeleteOp? then ArrayAddDelete else BadIndex
    case _ => NotAContainer
  }

  /** Why the walk cannot go on from a node. */
  function WhyBlocked(node: Json): EditError {
    if node.Object? then MissingSegment else if node.Array? then BadIndex else NotAContainer
  }

  /** How far the keys lead: to the container of the last one, or to where the next key leads nowhere. */
  ghost predicate Reaches(root: Json, parts: seq<string>, k: nat) {
    && k < |parts| && ReadAt(root, parts[..k]).Some?
    && (k < |parts| - 1 ==> ReadAt(root, parts[..k + 1]) == None)
  }

  /** An edit goes through exactly when its container is reached and allows it; otherwise its error is given. */
  lemma {:induction false} EditRefusals(root: Json, parts: seq<string>, op: ChangeOp) returns (k: nat)
    requires parts != []
    ensures Reaches(root, parts, k)
    ensures var node := ReadAt(root, parts[..k]).value;
            if k < |parts| - 1 then EditAt(root, parts, op) == Err(WhyBlocked(node))
            else if Possible(node, parts[k], op.kind) then EditAt(root, parts, op).Ok?
            else EditAt(root, parts, op) == Err(WhyNot(node, op.kind))
  {
    k := 0;
    assert parts[..0] == [] && parts[..1] == [parts[0]];
    ReadOne(root, parts[0]);
    if |parts| > 1 && Child(root, parts[0]).Ok? {
      var child := Child(root, parts[0]).value;
      var rest := EditRefusals(child, parts[1..], op);
      k := rest + 1;
      assert parts[..k][0] == parts[0] && parts[..k][1..] == parts[1..][..rest];
      assert k < |parts| - 1 ==> parts[..k + 1][0] == parts[0] && parts[..k + 1][1..] == parts[1..][..rest + 1];
    }
  }

  /** The walk finds the value that the keys lead to, or says why the first node it cannot leave is one. */
  lemma {:induction false} WalkReads(root: Json, keys: seq<string>)
    ensures ReadAt(root, keys) == if Resolve(root, keys).Ok? then Some(Resolve(root, keys).value) else None
    ensures forall k | 0 <= k < |keys| && ReadAt(root, keys[..k]).Some? && ReadAt(root, keys[..k + 1]) == None ::
              Resolve(root, keys) == Err(WhyBlocked(ReadAt(root, keys[..k]).value))
  {
    if keys != [] {
      ReadOne(root, keys[0]);
      assert keys[..1] == [keys[0]];
      if Child(root, keys[0]).Ok? {
        var child := Child(root, keys[0]).value;
        WalkReads(child, keys[1..]);
        forall k | 0 < k < |keys| && ReadAt(root, keys[..k]).Some? && ReadAt(root, keys[..k + 1]) == None
          ensures Resolve(root, keys) == Err(WhyBlocked(ReadAt(root, keys[..k]).value))
        {
          var j := k - 1;
          assert keys[..k][0] == keys[0] && keys[..k][1..] == keys[1..][..j];
          assert keys[..k + 1][0] == keys[0] && keys[..k + 1][1..] == keys[1..][..j + 1];
          assert ReadAt(child, keys[1..][..j]).Some? && ReadAt(child, keys[1..][..j + 1]) == None;
        }
      } else {
        forall k | 0 < k < |keys| ensures ReadAt(root, keys[..k]) == None {
          assert keys[..k] == [keys[0]] + keys[..k][1..];
          ReadFurther(root, [keys[0]], keys[..k][1..]);
        }
      }
    }
  }

  /** An edit acts on the container that the walk finds: it is refused or carried out by what that one allows. */
  lemma {:induction false} EditActsOnParent(root: Json, parts: seq<string>, op: ChangeOp)
    requires parts != []
    ensures var parent, edited := Resolve(root, parts[..|parts| - 1]), EditAt(root, parts, op);
            && (parent.Err? ==> edited == Err(parent.error))
            && (parent.Ok? && !Possible(parent.value, parts[|parts| - 1], op.kind) ==> edited == Err(WhyNot(parent.value, op.kind)))
            && (parent.Ok? && Possible(parent.value, parts[|parts| - 1], op.kind) ==>
                  edited.Ok? && Carried(root, edited.value, parts, op))
  {
    if EditAt(root, parts, op).Ok? { EditCarried(root, parts, op); }
    if |parts| > 1 {
      assert parts[..|parts| - 1][0] == parts[0];
      assert parts[..|parts| - 1][1..] == parts[1..][..|parts[1..]| - 1];
      if Child(root, parts[0]).Ok? {
        EditActsOnParent(Child(root, parts[0]).value, parts[1..], op);
      }
    }
  }

  /** One whole operation: parsed, inside the config model, and then carried out or refused for its reason. */
  lemma OperationMeaning(candidate: Json, op: ChangeOp) returns (k: nat)
    requires candidate.Object?
    ensures var parsed := Pointer.ParsePointer(op.path);
            && (ApplyOp(candidate, op) == Err(BadPath) <==> parsed == None)
            && (ApplyOp(candidate, op) == Err(OutsideModel) <==> parsed.Some? && ReadAt(candidate, parsed.value[..1]) == None)
            && (ApplyOp(candidate, op).Ok? ==> parsed.Some? && Carried(candidate, ApplyOp(candidate, op).value, parsed.value, op))
            && (parsed.Some? && ReadAt(candidate, parsed.value[..1]).Some? ==>
                  && Reaches(candidate, parsed.value, k)
                  && var node := ReadAt(candidate, parsed.value[..k]).value;
                     if k < |parsed.value| - 1 then ApplyOp(candidate, op) == Err(WhyBlocked(node))
                     else if Possible(node, parsed.value[k], op.kind) then ApplyOp(candidate, op).Ok?
                     else ApplyOp(candidate, op) == Err(WhyNot(node, op.kind)))
  {
    k := 0;
    match Pointer.ParsePointer(op.path)
    case None =>
    case Some(parts) =>
      PartsNotEmpty(op.path);
      assert parts[..1] == [parts[0]];
      ReadOne(candidate, parts[0]);
      if parts[0] in candidate.fields {
        k := EditRefusals(candidate, parts, op);
        if EditAt(candidate, parts, op).Ok? { EditCarried(candidate, parts, op); }
      }
  }

  lemma PartsNotEmpty(path: string)
    requires Pointer.ParsePointer(path).Some?
    ensures Pointer.ParsePointer(path).value != []
  {
  }

  // ---- what a candidate cannot change ----

  /** The settings of a section that an operation may replace one by one. */
  function Replaceable(section: string): set<string> {
    match section
    case "storage" => {"state_dir", "database"}
    case "xray" => {"outbound_bundle_sha256", "activation_mode", "subscription_secret_file", "last_good_config"}
    case "zapret" => {"activation_mode", "provider_source", "provider_version", "binary_sha256",
                      "adaptive_enabled", "adaptive_catalog_file", "adaptive_assignments"}
    case "openwrt" => {"flow_offloading_policy"}
    case "geoip" => {"database"}
    case _ => {}
  }

  /** An operation may name anything below the four free roots, and one replaceable setting at a time. */
  lemma AllowedPaths(path: string)
    ensures RootAllowed(path) <==>
              var parsed := Pointer.ParsePointer(path);
              && parsed.Some? && parsed.value != []
              && (parsed.value[0] in {"policy", "routes", "services", "overrides"}
                  || (|parsed.value| == 2 && parsed.value[1] in Replaceable(parsed.value[0])))
  {
  }

  /** A place outside everything that operations may touch. */
  ghost predicate Immutable(q: seq<string>) {
    && q != [] && q[0] !in {"policy", "routes", "services", "overrides"}
    && (|q| == 1 ==> Replaceable(q[0]) == {})
    && (|q| > 1 ==> q[1] !in Replaceable(q[0]))
  }

  /** No setting's name is an array index. */
  lemma NamesAreNoIndices(section: string, name: string)
    requires name in Replaceable(section)
    ensures Atoi(name) == None
  {
    assert !('0' <= name[0] <= '9') && name[0] != '-' && name[0] != '+';
  }

  lemma AllowedApart(candidate: Json, op: ChangeOp, q: seq<string>)
    requires candidate.Object? && RootAllowed(op.path) && ApplyOp(candidate, op).Ok? && Immutable(q)
    ensures Apart(candidate, Pointer.ParsePointer(op.path).value, q)
  {
    var parts := Pointer.ParsePointer(op.path).value;
    var k := OperationMeaning(candidate, op);
    assert parts[..1] == [parts[0]];
    if parts[0] == q[0] {
      assert |parts| == 2 && parts[1] in Replaceable(parts[0]);
      NamesAreNoIndices(parts[0], parts[1]);
      assert k == 1;
    }
  }

  /** Whatever the operations, an accepted candidate is the active tree at every immutable place. */
  lemma {:induction false} ImmutableKept(active: Json, ops: seq<ChangeOp>, q: seq<string>)
    requires active.Object? && Edited(active, ops).Some? && Immutable(q)
    ensures ReadAt(Edited(active, ops).value, q) == ReadAt(active, q)
    decreases |ops|
  {
    if ops != [] {
      EditedStep(active, ops);
      ApplyOpKeepsObject(active, ops[0]);
      var next := ApplyOp(active, ops[0]).value;
      AllowedApart(active, ops[0], q);
      var _ := OperationMeaning(active, ops[0]);
      ImmutableKept(next, ops[1..], q);
    }
  }

  // ---- indices ----

  /** A number in decimal digits. */
  function Decimal(n: nat): string {
    if n < 10 then [('0' as int + n) as char] else Decimal(n / 10) + [('0' as int + n % 10) as char]
  }

  lemma {:induction false} DigitsAppended(s: string, acc: int, c: char)
    requires '0' <= c <= '9'
    ensures s == [] ==> Digits(s + [c], acc) == Some(acc * 10 + (c as int - '0' as int))
    ensures Digits(s, acc).Some? ==> Digits(s + [c], acc) == Some(Digits(s, acc).value * 10 + (c as int - '0' as int))
  {
    if s == [] {
      assert s + [c] == [c];
    } else if '0' <= s[0] <= '9' {
      assert (s + [c])[0] == s[0] && (s + [c])[1..] == s[1..] + [c];
      DigitsAppended(s[1..], acc * 10 + (s[0] as int - '0' as int), c);
    }
  }

  lemma {:induction false} DigitsOfDecimal(n: nat)
    ensures Digits(Decimal(n), 0) == Some(n) && '0' <= Decimal(n)[0] <= '9'
  {
    if n >= 10 {
      DigitsOfDecimal(n / 10);
      DigitsAppended(Decimal(n / 10), 0, ('0' as int + n % 10) as char);
    }
  }

  /** Every element of an array can be named by its index in decimal. */
  lemma IndexNamesElement(items: seq<Json>, i: nat)
    requires i < |items|
    ensures PlaceOf(Array(items), Decimal(i)) == Element(i)
  {
    DigitsOfDecimal(i);
  }

  predicate AllDigits(s: string) {
    s != [] && forall c | c in s :: '0' <= c <= '9'
  }

  lemma {:induction false} DigitsExactly(s: string, acc: int)
    ensures Digits(s, acc).Some? <==> AllDigits(s)
  {
    if s != [] {
      assert s[0] in s && (forall c | c in s[1..] :: c in s) && (forall c | c in s :: c == s[0] || c in s[1..]);
      DigitsExactly(s[1..], if '0' <= s[0] <= '9' then acc * 10 + (s[0] as int - '0' as int) else acc);
    }
  }

  /** An index is decimal digits after at most one sign, and nothing else. */
  lemma IndexSyntax(s: string)
    ensures Atoi(s).Some? <==> AllDigits(s) || (s != [] && s[0] in {'+', '-'} && AllDigits(s[1..]))
  {
    if s != [] {
      DigitsExactly(s[1..], 0);
      DigitsExactly(s, 0);
    }
  }
}

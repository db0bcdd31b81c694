/**
  json.loads with duplicate keys refused, and json.dumps with sorted keys, for
  documents without floats. Loading joins escaped surrogate pairs, so a string
  that holds such a pair as two code points is the one thing printing loses.
 */
module JsonText {
  import opened Options
  import opened Decimals
  import opened Json
  import opened JsonSyntax

  type Document = Json<Text>

  // ----- Strings and UTF-16 units -----

  predicate High(c: Code) {
    0xD800 <= c < 0xDC00
  }

  predicate Low(c: Code) {
    0xDC00 <= c < 0xE000
  }

  function Pair(high: Unit, low: Unit): Code
    requires High(high) && Low(low)
  {
    0x10000 + 0x400 * (high - 0xD800) + (low - 0xDC00)
  }

  function Split(t: Text): seq<Unit> {
    if t == [] then [] else UnitsOf(t[0]) + Split(t[1..])
  }

  function Join(units: seq<Unit>): Text {
    if units == [] then []
    else if |units| >= 2 && High(units[0]) && Low(units[1]) then [Pair(units[0], units[1])] + Join(units[2..])
    else [units[0]] + Join(units[1..])
  }

  ghost predicate PairFree(t: Text) {
    forall i, j :: 0 <= i < j < |t| && j == i + 1 ==> !(High(t[i]) && Low(t[j]))
  }

  lemma {:induction false} JoinIsPairFree(units: seq<Unit>)
    ensures PairFree(Join(units))
    ensures units != [] && Join(units)[0] < 0x10000 ==> Join(units)[0] == units[0]
    decreases |units|
  {
    if units == [] {
    } else if |units| >= 2 && High(units[0]) && Low(units[1]) {
      JoinIsPairFree(units[2..]);
    } else {
      JoinIsPairFree(units[1..]);
      var more := Join(units[1..]);
      forall i, j | 0 <= i < j < |Join(units)| && j == i + 1 ensures !(High(Join(units)[i]) && Low(Join(units)[j])) {
        if i > 0 {
          assert Join(units)[i] == more[i - 1] && Join(units)[j] == more[j - 1];
        }
      }
    }
  }

  lemma PairFreeTail(t: Text)
    requires PairFree(t) && t != []
    ensures PairFree(t[1..])
  {
    forall i, j | 0 <= i < j < |t[1..]| && j == i + 1 ensures !(High(t[1..][i]) && Low(t[1..][j])) {
      assert t[1..][i] == t[i + 1] && t[1..][j] == t[j + 1];
    }
  }

  lemma UnitsOfJoin(c: Code)
    requires c >= 0x10000
    ensures var u := UnitsOf(c); High(u[0]) && Low(u[1]) && Pair(u[0], u[1]) == c
  {
  }

  lemma {:induction false} JoinSplit(t: Text)
    requires PairFree(t)
    ensures Join(Split(t)) == t
    decreases |t|
  {
    if t != [] {
      PairFreeTail(t);
      JoinSplit(t[1..]);
      var units := UnitsOf(t[0]) + Split(t[1..]);
      assert t == [t[0]] + t[1..];
      if t[0] >= 0x10000 {
        UnitsOfJoin(t[0]);
        assert units[2..] == Split(t[1..]);
      } else {
        assert units[1..] == Split(t[1..]);
        if |t| > 1 {
          assert Split(t[1..])[0] == UnitsOf(t[1])[0];
          assert !(High(t[0]) && Low(t[1]));
        }
      }
    }
  }

  /** A string comes back exactly when it holds no surrogate pair as two code points. */
  lemma StringReturns(t: Text)
    ensures Join(Split(t)) == t <==> PairFree(t)
  {
    if PairFree(t) {
      JoinSplit(t);
    } else {
      JoinIsPairFree(Split(t));
    }
  }

  // ----- Keys in order -----

  /** Python's order on strings: by code point. */
  predicate Less(a: Text, b: Text) {
    if b == [] then false
    else if a == [] then true
    else a[0] < b[0] || (a[0] == b[0] && Less(a[1..], b[1..]))
  }

  lemma {:induction false} LessTransitive(a: Text, b: Text, c: Text)
    requires Less(a, b) && Less(b, c)
    ensures Less(a, c)
    decreases |a|
  {
    if a != [] && a[0] == b[0] == c[0] {
      LessTransitive(a[1..], b[1..], c[1..]);
    }
  }

  lemma {:induction false} LessTotal(a: Text, b: Text)
    ensures a == b || Less(a, b) || Less(b, a)
    decreases |a|
  {
    if a != [] && b != [] && a[0] == b[0] {
      LessTotal(a[1..], b[1..]);
      assert a == [a[0]] + a[1..] && b == [b[0]] + b[1..];
    }
  }

  ghost function Least(keys: set<Text>): (least: Text)
    requires keys != {}
    ensures least in keys && forall k :: k in keys && k != least ==> Less(least, k)
  {
    var k :| k in keys;
    if keys == {k} then k
    else
      var other := Least(keys - {k});
      LessTotal(k, other);
      if Less(k, other) then
        assert forall j :: j in keys && j != k && j != other ==> Less(k, j) by {
          forall j | j in keys && j != k && j != other ensures Less(k, j) {
            LessTransitive(k, other, j);
          }
        }
        k
      else other
  }

  /** The keys of a dict as sort_keys lists them. */
  ghost function Sorted(keys: set<Text>): (listed: seq<Text>)
    ensures forall k :: k in listed <==> k in keys
    ensures forall i, j :: 0 <= i < j < |listed| ==> Less(listed[i], listed[j]) && listed[i] != listed[j]
  {
    if keys == {} then [] else [Least(keys)] + Sorted(keys - {Least(keys)})
  }

  // ----- Documents and syntax trees -----

  ghost function TreeOf(d: Document): Tree
    decreases d
  {
    match d
    case Null => TNull
    case Bool(truth) => TBool(truth)
    case Int(number) => TInt(number)
    case Str(text) => TText(Split(text))
    case Array(items) => TArray(TreesOf(items))
    case Object(members) => TObject(EntriesOf(d, Sorted(members.Keys)))
  }

  ghost function TreesOf(items: seq<Document>): (trees: seq<Tree>)
    ensures |trees| == |items|
    decreases items
  {
    if items == [] then [] else [TreeOf(items[0])] + TreesOf(items[1..])
  }

  ghost function EntriesOf(d: Document, keys: seq<Text>): (entries: seq<Entry>)
    requires d.Object? && forall k :: k in keys ==> k in d.members
    ensures |entries| == |keys|
    decreases d, |keys|
  {
    if keys == [] then [] else [Entry(Split(keys[0]), TreeOf(d.members[keys[0]]))] + EntriesOf(d, keys[1..])
  }

  function Assemble(t: Tree): Option<Document>
    decreases t
  {
    match t
    case TNull => Some(Null)
    case TBool(truth) => Some(Bool(truth))
    case TInt(number) => Some(Int(number))
    case TText(units) => Some(Str(Join(units)))
    case TArray(items) =>
      var values :- AssembleItems(items);
      Some(Array(values))
    case TObject(entries) =>
      var members :- AssembleEntries(entries);
      Some(Object(members))
  }

  function AssembleItems(items: seq<Tree>): Option<seq<Document>>
    decreases items
  {
    if items == [] then Some([])
    else
      var first :- Assemble(items[0]);
      var rest :- AssembleItems(items[1..]);
      Some([first] + rest)
  }

  /** A key met twice is an error. */
  function AssembleEntries(entries: seq<Entry>): Option<map<Text, Document>>
    decreases entries
  {
    if entries == [] then Some(map[])
    else
      var value :- Assemble(entries[0].value);
      var rest :- AssembleEntries(entries[1..]);
      if Join(entries[0].key) in rest then None else Some(rest[Join(entries[0].key) := value])
  }

  ghost function Dumps(d: Document): Text {
    Show(TreeOf(d))
  }

  /** One value and nothing else but space around it. */
  function Loads(text: Text): Option<Document> {
    var (tree, rest) :- Read(Skip(text));
    if Skip(rest) != [] then None else Assemble(tree)
  }

  lemma LoadsOfDumps(d: Document)
    ensures Loads(Dumps(d)) == Assemble(TreeOf(d))
  {
    ReadShow(TreeOf(d), []);
    ShowStarts(TreeOf(d));
    assert Dumps(d) + [] == Dumps(d);
  }

  /** A value may be followed by space and by nothing else: of two values in a row none is read. */
  lemma OnlySpaceMayFollow(d: Document, more: Text)
    requires Ends(more)
    ensures Loads(Dumps(d) + more) == if Skip(more) == [] then Loads(Dumps(d)) else None
  {
    ReadShow(TreeOf(d), more);
    ReadShow(TreeOf(d), []);
    ShowStarts(TreeOf(d));
    assert Dumps(d) + [] == Dumps(d);
    hide Read, Show, Assemble, Skip;
    assert Skip(Dumps(d) + more) == Dumps(d) + more && Skip(Dumps(d)) == Dumps(d);
  }

  // ----- What comes back -----

  /** No string or key anywhere holds a surrogate pair as two code points. */
  ghost predicate Clean(d: Document)
    decreases d
  {
    match d
    case Str(text) => PairFree(text)
    case Array(items) => forall i :: 0 <= i < |items| ==> Clean(items[i])
    case Object(members) => forall k :: k in members ==> PairFree(k) && Clean(members[k])
    case _ => true
  }

  lemma {:induction false} AssembledIsClean(t: Tree)
    requires Assemble(t).Some?
    ensures Clean(Assemble(t).value)
    decreases t
  {
    match t
    case TText(units) => JoinIsPairFree(units);
    case TArray(items) => AssembledItemsAreClean(items);
    case TObject(entries) => AssembledEntriesAreClean(entries);
    case _ =>
  }

  lemma {:induction false} AssembledItemsAreClean(items: seq<Tree>)
    requires AssembleItems(items).Some?
    ensures forall i :: 0 <= i < |AssembleItems(items).value| ==> Clean(AssembleItems(items).value[i])
    decreases items
  {
    if items != [] {
      AssembledIsClean(items[0]);
      AssembledItemsAreClean(items[1..]);
    }
  }

  lemma {:induction false} AssembledEntriesAreClean(entries: seq<Entry>)
    requires AssembleEntries(entries).Some?
    ensures var m := AssembleEntries(entries).value; forall k :: k in m ==> PairFree(k) && Clean(m[k])
    decreases entries
  {
    if entries != [] {
      AssembledIsClean(entries[0].value);
      AssembledEntriesAreClean(entries[1..]);
      JoinIsPairFree(entries[0].key);
    }
  }

  /** The members under the keys listed. */
  function Select(members: map<Text, Document>, keys: seq<Text>): map<Text, Document>
    requires forall k :: k in keys ==> k in members
  {
    map k | k in keys :: members[k]
  }

  lemma SelectStep(members: map<Text, Document>, keys: seq<Text>)
    requires keys != [] && forall k :: k in keys ==> k in members
    ensures Select(members, keys) == Select(members, keys[1..])[keys[0] := members[keys[0]]]
  {
    assert forall k :: k in keys <==> k == keys[0] || k in keys[1..];
  }

  lemma SelectLacks(members: map<Text, Document>, keys: seq<Text>)
    requires keys != [] && forall k :: k in keys ==> k in members
    requires forall i, j :: 0 <= i < j < |keys| ==> keys[i] != keys[j]
    ensures keys[0] !in Select(members, keys[1..])
  {
  }

  lemma SelectAll(members: map<Text, Document>, keys: seq<Text>)
    requires forall k :: k in keys <==> k in members
    ensures Select(members, keys) == members
  {
  }

  lemma {:induction false} CleanReturns(d: Document)
    requires Clean(d)
    ensures Assemble(TreeOf(d)) == Some(d)
    decreases d
  {
    match d
    case Str(text) => StringReturns(text);
    case Array(items) => CleanItemsReturn(items);
    case Object(members) =>
      CleanEntriesReturn(d, Sorted(members.Keys));
      SelectAll(members, Sorted(members.Keys));
    case _ =>
  }

  lemma {:induction false} CleanItemsReturn(items: seq<Document>)
    requires forall i :: 0 <= i < |items| ==> Clean(items[i])
    ensures AssembleItems(TreesOf(items)) == Some(items)
    decreases items
  {
    if items != [] {
      hide Clean, TreeOf, Assemble, AssembleItems;
      CleanReturns(items[0]);
      CleanItemsReturn(items[1..]);
      assert items == [items[0]] + items[1..];
      FirstItemAssembled(TreeOf(items[0]), TreesOf(items[1..]));
    }
  }

  lemma FirstItemAssembled(first: Tree, rest: seq<Tree>)
    requires Assemble(first).Some? && AssembleItems(rest).Some?
    ensures AssembleItems([first] + rest) == Some([Assemble(first).value] + AssembleItems(rest).value)
  {
    hide Assemble;
    assert ([first] + rest)[1..] == rest;
  }

  lemma {:induction false} CleanEntriesReturn(d: Document, keys: seq<Text>)
    requires d.Object? && Clean(d) && forall k :: k in keys ==> k in d.members
    requires forall i, j :: 0 <= i < j < |keys| ==> keys[i] != keys[j]
    ensures AssembleEntries(EntriesOf(d, keys)) == Some(Select(d.members, keys))
    decreases d, |keys|
  {
    if keys != [] {
      CleanReturns(d.members[keys[0]]);
      CleanEntriesReturn(d, keys[1..]);
      StringReturns(keys[0]);
      SelectStep(d.members, keys);
      hide Select, Join, Split, Clean, TreeOf, Assemble;
      assert EntriesOf(d, keys)[1..] == EntriesOf(d, keys[1..]);
      SelectLacks(d.members, keys);
    }
  }

  /** Loading undoes dumping exactly for the clean documents. */
  lemma LoadsUndoesDumps(d: Document)
    ensures Loads(Dumps(d)) == Some(d) <==> Clean(d)
  {
    LoadsOfDumps(d);
    if Clean(d) {
      CleanReturns(d);
    } else if Assemble(TreeOf(d)).Some? {
      AssembledIsClean(TreeOf(d));
    }
  }

  /** Whatever is loaded is clean, and so is dumped and loaded again unchanged. */
  lemma LoadedIsClean(text: Text)
    requires Loads(text).Some?
    ensures Clean(Loads(text).value)
    ensures Loads(Dumps(Loads(text).value)) == Loads(text)
  {
    AssembledIsClean(Read(Skip(text)).value.0);
    LoadsUndoesDumps(Loads(text).value);
  }

  /** Two documents have one text exactly when they have one syntax tree. */
  lemma SameTextSameTree(a: Document, b: Document)
    ensures Dumps(a) == Dumps(b) <==> TreeOf(a) == TreeOf(b)
  {
    if Dumps(a) == Dumps(b) {
      ShowIsInjective(TreeOf(a), TreeOf(b));
    }
  }

  /** Clean documents with one text are one document. */
  lemma DumpsIsInjective(a: Document, b: Document)
    requires Clean(a) && Clean(b) && Dumps(a) == Dumps(b)
    ensures a == b
  {
    LoadsUndoesDumps(a);
    LoadsUndoesDumps(b);
  }

  /** A pair written as two code points has the text of the one it stands for. */
  lemma DumpsLosesPairs()
    ensures var two: Document, one: Document := Str([0xD800, 0xDC00]), Str([0x10000]);
      two != one && Dumps(two) == Dumps(one)
  {
    assert Split([0x10000]) == [0xD800, 0xDC00];
    assert Split([0xD800, 0xDC00]) == [0xD800, 0xDC00] by {
      assert [0xD800, 0xDC00][1..] == [0xDC00];
    }
    var one: Text, two: Text := [0x10000], [0xD800, 0xDC00];
    assert two[0] != one[0] || |two| != |one|;
  }

  /** Two members of one object with the same key are refused, wherever they stand. */
  lemma {:induction false} DuplicateKeyRefused(entries: seq<Entry>, i: nat, j: nat)
    requires i < j < |entries| && Join(entries[i].key) == Join(entries[j].key)
    ensures AssembleEntries(entries) == None
    decreases |entries|
  {
    if i > 0 {
      DuplicateKeyRefused(entries[1..], i - 1, j - 1);
    } else if AssembleEntries(entries[1..]).Some? {
      EveryKeyStays(entries[1..], j - 1);
    }
  }

  lemma {:induction false} EveryKeyStays(entries: seq<Entry>, j: nat)
    requires AssembleEntries(entries).Some? && j < |entries|
    ensures Join(entries[j].key) in AssembleEntries(entries).value
    decreases |entries|
  {
    if j > 0 {
      EveryKeyStays(entries[1..], j - 1);
    }
  }

  // ----- The dict a list of pairs makes -----

  predicate Distinct(pairs: seq<(Text, Document)>) {
    forall i, j :: 0 <= i < j < |pairs| ==> pairs[i].0 != pairs[j].0
  }

  /** m holds these pairs and nothing else. */
  predicate Holds(m: map<Text, Document>, pairs: seq<(Text, Document)>) {
    && (forall i :: 0 <= i < |pairs| ==> pairs[i].0 in m && m[pairs[i].0] == pairs[i].1)
    && (forall k :: k in m ==> exists i :: 0 <= i < |pairs| && pairs[i].0 == k)
  }

  /** _no_duplicates: the pairs of one object become a dict, unless a key comes twice. */
  method NoDuplicates(pairs: seq<(Text, Document)>) returns (r: Option<map<Text, Document>>)
    ensures r.Some? <==> Distinct(pairs)
    ensures r.Some? ==> Holds(r.value, pairs)
  {
    var result: map<Text, Document> := map[];
    for n := 0 to |pairs|
      invariant Distinct(pairs[..n]) && Holds(result, pairs[..n])
    {
      var (key, value) := pairs[n];
      if key in result {
        var i :| 0 <= i < n && pairs[..n][i].0 == key;
        assert pairs[i].0 == pairs[n].0;
        return None;
      }
      AddedHolds(pairs, n, result);
      result := result[key := value];
    }
    assert pairs[..|pairs|] == pairs;
    r := Some(result);
  }

  lemma AddedHolds(pairs: seq<(Text, Document)>, n: nat, result: map<Text, Document>)
    requires n < |pairs| && Distinct(pairs[..n]) && Holds(result, pairs[..n]) && pairs[n].0 !in result
    ensures Distinct(pairs[..n + 1]) && Holds(result[pairs[n].0 := pairs[n].1], pairs[..n + 1])
  {
    var front, more, next := pairs[..n], pairs[..n + 1], result[pairs[n].0 := pairs[n].1];
    assert more == front + [pairs[n]];
    forall i, j | 0 <= i < j < |more| ensures more[i].0 != more[j].0 {
      assert more[i] == front[i];
    }
    forall k | k in next ensures exists i :: 0 <= i < |more| && more[i].0 == k {
      if k == pairs[n].0 {
        assert more[n].0 == k;
      } else {
        var i :| 0 <= i < n && front[i].0 == k;
        assert more[i].0 == k;
      }
    }
  }

  /** The members of an object, each with its key joined and its value assembled. */
  function AssemblePairs(entries: seq<Entry>): (r: Option<seq<(Text, Document)>>)
    ensures r.Some? ==> |r.value| == |entries|
  {
    if entries == [] then Some([])
    else
      var value :- Assemble(entries[0].value);
      var rest :- AssemblePairs(entries[1..]);
      Some([(Join(entries[0].key), value)] + rest)
  }

  /** Only one dict holds just these pairs. */
  lemma HoldsIsUnique(a: map<Text, Document>, b: map<Text, Document>, pairs: seq<(Text, Document)>)
    requires Holds(a, pairs) && Holds(b, pairs)
    ensures a == b
  {
    forall k | k in a ensures k in b && a[k] == b[k] {
      var i :| 0 <= i < |pairs| && pairs[i].0 == k;
    }
    assert forall k :: k in b ==> k in a;
  }

  /** What loading makes of an object is the dict of its pairs. */
  lemma {:induction false} AssembleIsNoDuplicates(entries: seq<Entry>)
    ensures AssembleEntries(entries).Some? <==> AssemblePairs(entries).Some? && Distinct(AssemblePairs(entries).value)
    ensures AssembleEntries(entries).Some? ==> Holds(AssembleEntries(entries).value, AssemblePairs(entries).value)
    decreases |entries|
  {
    if entries != [] {
      AssembleIsNoDuplicates(entries[1..]);
      if AssemblePairs(entries).Some? {
        var pairs, rest := AssemblePairs(entries).value, AssemblePairs(entries[1..]).value;
        assert pairs[1..] == rest && pairs[0].0 == Join(entries[0].key);
        FirstPair(pairs);
        if AssembleEntries(entries[1..]).Some? {
          FirstHolds(pairs, AssembleEntries(entries[1..]).value);
        }
      }
    }
  }

  /** So loading an object is assembling its values and running that loop over the pairs. */
  method LoadObject(entries: seq<Entry>) returns (r: Option<map<Text, Document>>)
    ensures r == AssembleEntries(entries)
  {
    AssembleIsNoDuplicates(entries);
    var pairs := AssemblePairs(entries);
    if pairs == None {
      return None;
    }
    r := NoDuplicates(pairs.value);
    if r.Some? {
      HoldsIsUnique(r.value, AssembleEntries(entries).value, pairs.value);
    }
  }

  lemma FirstPair(pairs: seq<(Text, Document)>)
    requires pairs != []
    ensures Distinct(pairs) <==> Distinct(pairs[1..]) && forall i :: 0 <= i < |pairs[1..]| ==> pairs[1..][i].0 != pairs[0].0
  {
    var rest := pairs[1..];
    assert forall i :: 0 < i < |pairs| ==> pairs[i] == rest[i - 1];
    assert forall i :: 0 <= i < |rest| ==> rest[i] == pairs[i + 1];
  }

  lemma FirstHolds(pairs: seq<(Text, Document)>, rest: map<Text, Document>)
    requires pairs != [] && Holds(rest, pairs[1..])
    ensures pairs[0].0 in rest <==> exists i :: 0 <= i < |pairs[1..]| && pairs[1..][i].0 == pairs[0].0
    ensures pairs[0].0 !in rest ==> Holds(rest[pairs[0].0 := pairs[0].1], pairs)
  {
    var tail, m := pairs[1..], rest[pairs[0].0 := pairs[0].1];
    if pairs[0].0 !in rest {
      forall i | 0 <= i < |pairs| ensures pairs[i].0 in m && m[pairs[i].0] == pairs[i].1 {
        if i > 0 {
          assert pairs[i] == tail[i - 1];
        }
      }
      forall k | k in m ensures exists i :: 0 <= i < |pairs| && pairs[i].0 == k {
        if k == pairs[0].0 {
          assert pairs[0].0 == k;
        } else {
          var i :| 0 <= i < |tail| && tail[i].0 == k;
          assert pairs[i + 1].0 == k;
        }
      }
    }
  }
}

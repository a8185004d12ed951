/**
 * model/mergeData.py: joins each pilotage entry with the arrival that has
 * the same visit code. The file reads and write and the closing print are
 * not modelled: the script is the function from the two loaded documents to
 * the saved one.
 */
module MergeData {
  import opened Wrappers
  import opened Json
  import opened PyOps
  import opened Comprehension

  /** The lookup table: dict keys up to Python's key equality (see KeyOf), each with its arrival. */
  type Index = map<Json, Fields>

  /** The key `entry["Ticanje"]` files an arrival under, or what building the table raises. */
  function ArrivalKey(entry: Json): (r: Result<Json, PyError>)
    ensures r.Success? <==> entry.JObj? && "Ticanje" in Keys(entry.fields) && Hashable(Get(entry.fields, "Ticanje").value)
    ensures r.Success? ==> r.value == KeyOf(Get(entry.fields, "Ticanje").value)
  {
    var t :- Subscript(entry, "Ticanje");
    if Hashable(t) then Success(KeyOf(t)) else Failure(Unhashable(t))
  }

  /** Every table entry is an arrival filed under its own "Ticanje". */
  ghost predicate IndexValid(index: Index) {
    forall k :: k in index ==> "Ticanje" in Keys(index[k]) && KeyOf(Get(index[k], "Ticanje").value) == k
  }

  /** `{entry["Ticanje"]: entry for entry in arrivals}` */
  function BuildIndex(arrivals: seq<Json>): (r: Result<Index, PyError>)
    ensures r.Success? ==> IndexValid(r.value)
    decreases |arrivals|
  {
    if arrivals == [] then Success(map[])
    else
      var n := |arrivals| - 1;
      var index :- BuildIndex(arrivals[..n]);
      var key :- ArrivalKey(arrivals[n]);
      Success(index[key := arrivals[n].fields])
  }

  /** Building the table succeeds exactly when every arrival has a usable "Ticanje". */
  lemma {:induction false} IndexBuilds(arrivals: seq<Json>)
    ensures BuildIndex(arrivals).Success? <==> forall i :: 0 <= i < |arrivals| ==> ArrivalKey(arrivals[i]).Success?
    decreases |arrivals|
  {
    if arrivals != [] {
      var n := |arrivals| - 1;
      IndexBuilds(arrivals[..n]);
      assert forall i :: 0 <= i < n ==> arrivals[..n][i] == arrivals[i];
    }
  }

  /** Every arrival's visit code is a key of the table. */
  lemma {:induction false} ArrivalIsIndexed(arrivals: seq<Json>, index: Index, i: nat)
    requires BuildIndex(arrivals) == Success(index)
    requires i < |arrivals|
    ensures ArrivalKey(arrivals[i]).Success? && ArrivalKey(arrivals[i]).value in index
    decreases |arrivals|
  {
    var n := |arrivals| - 1;
    if i < n {
      var front := BuildIndex(arrivals[..n]).value;
      assert arrivals[..n][i] == arrivals[i];
      ArrivalIsIndexed(arrivals[..n], front, i);
    }
  }

  /** Every key of the table is the visit code of some arrival. */
  lemma {:induction false} IndexKeyHasArrival(arrivals: seq<Json>, index: Index, k: Json) returns (i: nat)
    requires BuildIndex(arrivals) == Success(index)
    requires k in index
    ensures i < |arrivals| && ArrivalKey(arrivals[i]) == Success(k)
    decreases |arrivals|
  {
    var n := |arrivals| - 1;
    if ArrivalKey(arrivals[n]) == Success(k) {
      i := n;
    } else {
      var front := BuildIndex(arrivals[..n]).value;
      i := IndexKeyHasArrival(arrivals[..n], front, k);
      assert arrivals[..n][i] == arrivals[i];
    }
  }

  /** When several arrivals share a visit code, the table holds the last of them. */
  lemma {:induction false} LastArrivalWins(arrivals: seq<Json>, index: Index, i: nat)
    requires BuildIndex(arrivals) == Success(index)
    requires i < |arrivals|
    requires forall j :: i < j < |arrivals| ==> ArrivalKey(arrivals[j]) != ArrivalKey(arrivals[i])
    ensures ArrivalKey(arrivals[i]).Success? && ArrivalKey(arrivals[i]).value in index
    ensures index[ArrivalKey(arrivals[i]).value] == arrivals[i].fields
    decreases |arrivals|
  {
    var n := |arrivals| - 1;
    var front := BuildIndex(arrivals[..n]).value;
    ArrivalIsIndexed(arrivals, index, i);
    if i < n {
      assert forall j :: i < j < n ==> arrivals[..n][j] == arrivals[j];
      assert arrivals[..n][i] == arrivals[i];
      LastArrivalWins(arrivals[..n], front, i);
    }
  }

  /** The arrival a pilotage entry's `p.get("sifraticanja")` finds in the table, if any. */
  function Lookup(index: Index, p: Json): (r: Result<Option<Fields>, PyError>)
    ensures r.Success? <==> p.JObj? && Hashable(Get(p.fields, "sifraticanja").GetOr(JNull))
    ensures r.Success? ==> (r.value.Some? <==> KeyOf(Get(p.fields, "sifraticanja").GetOr(JNull)) in index)
    ensures r.Success? && r.value.Some? ==> r.value.value == index[KeyOf(Get(p.fields, "sifraticanja").GetOr(JNull))]
  {
    var id :- MethodGet(p, "sifraticanja");
    var tid := id.GetOr(JNull);
    if !Hashable(tid) then Failure(Unhashable(tid))
    else if KeyOf(tid) in index then Success(Some(index[KeyOf(tid)]))
    else Success(None)
  }

  /** `ticanje_id in arrivals_dict` */
  function IsMatched(index: Index, p: Json): (r: Result<bool, PyError>)
    ensures r == Success(true) <==>
              p.JObj? && Hashable(Get(p.fields, "sifraticanja").GetOr(JNull))
              && KeyOf(Get(p.fields, "sifraticanja").GetOr(JNull)) in index
  {
    var arrival :- Lookup(index, p);
    Success(arrival.Some?)
  }

  /** `{"Ticanje": ticanje_id, **arrival, **p}` */
  function MergeRecord(id: Json, arrival: Fields, p: Fields): (r: Fields)
    ensures Keys(r) == {"Ticanje"} + Keys(arrival) + Keys(p)
    ensures forall k :: k in Keys(p) ==> Get(r, k) == Get(p, k)
    ensures forall k :: k !in Keys(p) && k in Keys(arrival) ==> Get(r, k) == Get(arrival, k)
    ensures "Ticanje" !in Keys(p) + Keys(arrival) ==> Get(r, "Ticanje") == Some(id)
    ensures UniqueKeys(r)
  {
    var start := [("Ticanje", id)];
    Single(("Ticanje", id));
    Update(Update(start, arrival), p)
  }

  /** The merged record for a matched pilotage entry (JNull for one that is not matched). */
  function Combine(index: Index, p: Json): Json {
    match Lookup(index, p)
    case Success(Some(arrival)) => JObj(MergeRecord(Get(p.fields, "sifraticanja").GetOr(JNull), arrival, p.fields))
    case _ => JNull
  }

  /** The test of the loop's `if`, as a comprehension test. */
  function Matcher(index: Index): Json -> Result<bool, PyError> {
    p => IsMatched(index, p)
  }

  /** The rows one pilotage entry adds: one when matched, none otherwise. */
  function MergeOne(index: Index, p: Json): Result<seq<Json>, PyError> {
    var matched :- IsMatched(index, p);
    Success(if matched then [Combine(index, p)] else [])
  }

  /** The rows of the merge loop, pilotage entries taken in order. */
  function MergeRows(index: Index, pilotage: seq<Json>): (r: Result<seq<Json>, PyError>)
    ensures r.Success? ==> |r.value| <= |pilotage|
    decreases |pilotage|
  {
    if pilotage == [] then Success([])
    else
      var row :- MergeOne(index, pilotage[0]);
      var rest :- MergeRows(index, pilotage[1..]);
      Success(row + rest)
  }

  function MapCombine(index: Index, kept: seq<Json>): (r: seq<Json>)
    ensures |r| == |kept| && forall i :: 0 <= i < |kept| ==> r[i] == Combine(index, kept[i])
  {
    if kept == [] then [] else [Combine(index, kept[0])] + MapCombine(index, kept[1..])
  }

  /** The merged records of the kept entries, or the exception that aborted the filtering. */
  function CombineAll(index: Index, kept: Result<seq<Json>, PyError>): (r: Result<seq<Json>, PyError>)
    ensures kept.Failure? ==> r == Failure(kept.error)
    ensures kept.Success? ==> r == Success(MapCombine(index, kept.value))
  {
    match kept
    case Success(entries) => Success(MapCombine(index, entries))
    case Failure(e) => Failure(e)
  }

  /**
   * The loop is a filter followed by a map: the matched pilotage entries,
   * in pilotage order, each merged with its arrival; an entry that is not
   * an object or whose code cannot be a dict key aborts the script.
   */
  lemma {:induction false} RowsAreMatchedEntries(index: Index, pilotage: seq<Json>)
    ensures MergeRows(index, pilotage) == CombineAll(index, Filter(pilotage, Matcher(index)))
    decreases |pilotage|
  {
    if pilotage != [] {
      var x := pilotage[0];
      RowsAreMatchedEntries(index, pilotage[1..]);
      var rest := Filter(pilotage[1..], Matcher(index));
      assert Matcher(index)(x) == IsMatched(index, x);
      if IsMatched(index, x).Success? && rest.Success? {
        var kept := if IsMatched(index, x).value then [x] + rest.value else rest.value;
        assert Filter(pilotage, Matcher(index)) == Success(kept);
        if IsMatched(index, x).value {
          assert MergeOne(index, x) == Success([Combine(index, x)]);
          assert MapCombine(index, kept) == [Combine(index, x)] + MapCombine(index, rest.value);
        } else {
          assert MergeOne(index, x) == Success([]);
          assert [] + MapCombine(index, rest.value) == MapCombine(index, rest.value);
        }
      }
    }
  }

  /**
   * The saved rows: one per matched pilotage entry, in pilotage order, so
   * never more than there are pilotage entries; every matched entry yields
   * a row, also when several share one arrival.
   */
  lemma MatchedRows(index: Index, pilotage: seq<Json>, kept: seq<Json>)
    requires Filter(pilotage, Matcher(index)) == Success(kept)
    ensures MergeRows(index, pilotage) == Success(MapCombine(index, kept))
    ensures |MapCombine(index, kept)| == |kept| <= |pilotage|
    ensures SubsequenceOf(kept, pilotage)
    ensures forall i :: 0 <= i < |kept| ==>
              kept[i].JObj? && KeyOf(Get(kept[i].fields, "sifraticanja").GetOr(JNull)) in index
    ensures forall i :: 0 <= i < |pilotage| && pilotage[i].JObj?
              && Hashable(Get(pilotage[i].fields, "sifraticanja").GetOr(JNull))
              && KeyOf(Get(pilotage[i].fields, "sifraticanja").GetOr(JNull)) in index
              ==> multiset(kept)[pilotage[i]] == multiset(pilotage)[pilotage[i]]
  {
    RowsAreMatchedEntries(index, pilotage);
    FilterSound(pilotage, Matcher(index), kept);
    FilterComplete(pilotage, Matcher(index), kept);
    FilterOrder(pilotage, Matcher(index), kept);
  }

  /**
   * A merged record: every pilotage key carries its pilotage value, arrival
   * keys the pilotage entry lacks carry the arrival's value, and "Ticanje"
   * is the matched visit code (the arrival's own "Ticanje", equal to
   * `p.get("sifraticanja")` as a dict key) unless the pilotage entry has a
   * "Ticanje" of its own.
   */
  lemma MergedRecordFields(index: Index, p: Json)
    requires IndexValid(index)
    requires IsMatched(index, p) == Success(true)
    ensures var id := Get(p.fields, "sifraticanja").GetOr(JNull);
            var arrival := index[KeyOf(id)];
            && Combine(index, p).JObj?
            && var r := Combine(index, p).fields;
            && Keys(r) == {"Ticanje"} + Keys(arrival) + Keys(p.fields)
            && (forall k :: k in Keys(p.fields) ==> Get(r, k) == Get(p.fields, k))
            && (forall k :: k !in Keys(p.fields) && k in Keys(arrival) ==> Get(r, k) == Get(arrival, k))
            && ("Ticanje" !in Keys(p.fields) ==>
                  Get(r, "Ticanje") == Get(arrival, "Ticanje") && KeyOf(Get(r, "Ticanje").value) == KeyOf(id))
  {
  }

  /** The rows already appended followed by those still to come, or the exception that will abort. */
  function Prepend(done: seq<Json>, rest: Result<seq<Json>, PyError>): (r: Result<seq<Json>, PyError>)
    ensures rest.Success? ==> r == Success(done + rest.value)
    ensures rest.Failure? ==> r == rest
  {
    match rest
    case Success(rows) => Success(done + rows)
    case Failure(e) => Failure(e)
  }

  /** The saved document: `{"data": merged_data}`. */
  function MergeSpec(arrivalsDoc: Json, pilotageDoc: Json): (r: Result<Json, PyError>)
    ensures r.Success? ==> && r.value.JObj? && |r.value.fields| == 1
                            && r.value.fields[0].0 == "data" && r.value.fields[0].1.JList?
    ensures r.Success? ==> && Subscript(pilotageDoc, "data").Success?
                           && Iterate(Subscript(pilotageDoc, "data").value).Success?
                           && |r.value.fields[0].1.items| <= |Iterate(Subscript(pilotageDoc, "data").value).value|
  {
    var arrivals :- Subscript(arrivalsDoc, "data");
    var pilotage :- Subscript(pilotageDoc, "data");
    var arrivalItems :- Iterate(arrivals);
    var index :- BuildIndex(arrivalItems);
    var pilotageItems :- Iterate(pilotage);
    var rows :- MergeRows(index, pilotageItems);
    Success(JObj([("data", JList(rows))]))
  }

  lemma MergeRowsCons(index: Index, pilotage: seq<Json>)
    requires pilotage != []
    ensures MergeRows(index, pilotage) == match MergeOne(index, pilotage[0])
                                          case Success(row) => Prepend(row, MergeRows(index, pilotage[1..]))
                                          case Failure(e) => Failure(e)
  {
  }

  lemma PrependTwice(a: seq<Json>, b: seq<Json>, rest: Result<seq<Json>, PyError>)
    ensures Prepend(a, Prepend(b, rest)) == Prepend(a + b, rest)
  {
    if rest.Success? {
      assert a + (b + rest.value) == (a + b) + rest.value;
    }
  }

  lemma MergeOneOfLookup(index: Index, p: Json)
    requires Lookup(index, p).Success?
    ensures MergeOne(index, p) == Success(
              if Lookup(index, p).value.Some?
              then [JObj(MergeRecord(Get(p.fields, "sifraticanja").GetOr(JNull), Lookup(index, p).value.value, p.fields))]
              else [])
  {
  }

  /** One turn of the merge loop keeps the rows appended so far a prefix of the final result. */
  lemma MergeStep(index: Index, pilotage: seq<Json>, i: nat, merged: seq<Json>)
    requires i < |pilotage|
    requires MergeRows(index, pilotage) == Prepend(merged, MergeRows(index, pilotage[i..]))
    ensures MergeOne(index, pilotage[i]).Failure? ==>
              MergeRows(index, pilotage) == Failure(MergeOne(index, pilotage[i]).error)
    ensures MergeOne(index, pilotage[i]).Success? ==>
              MergeRows(index, pilotage) ==
                Prepend(merged + MergeOne(index, pilotage[i]).value, MergeRows(index, pilotage[i + 1..]))
  {
    assert pilotage[i..][0] == pilotage[i] && pilotage[i..][1..] == pilotage[i + 1..];
    MergeRowsCons(index, pilotage[i..]);
    if MergeOne(index, pilotage[i]).Success? {
      PrependTwice(merged, MergeOne(index, pilotage[i]).value, MergeRows(index, pilotage[i + 1..]));
    }
  }

  /** The body of the loop for one pilotage entry: the merged record when its code is in the table. */
  method MergeEntry(index: Index, p: Json) returns (r: Result<seq<Json>, PyError>)
    ensures r == MergeOne(index, p)
  {
    var found := Lookup(index, p);
    if found.Failure? {
      return Failure(found.error);
    }
    MergeOneOfLookup(index, p);
    if found.value.Some? {
      var id := Get(p.fields, "sifraticanja").GetOr(JNull);
      return Success([JObj(MergeRecord(id, found.value.value, p.fields))]);
    }
    return Success([]);
  }

  /** The `for p in pilotage` loop: appends the merged record of every matched entry. */
  method AppendMerged(index: Index, pilotage: seq<Json>) returns (r: Result<seq<Json>, PyError>)
    ensures r == MergeRows(index, pilotage)
  {
    var merged: seq<Json> := [];
    var i := 0;
    assert pilotage[i..] == pilotage;
    assert Prepend([], MergeRows(index, pilotage)) == MergeRows(index, pilotage) by {
      if MergeRows(index, pilotage).Success? {
        assert [] + MergeRows(index, pilotage).value == MergeRows(index, pilotage).value;
      }
    }
    while i < |pilotage|
      invariant 0 <= i <= |pilotage|
      invariant MergeRows(index, pilotage) == Prepend(merged, MergeRows(index, pilotage[i..]))
    {
      MergeStep(index, pilotage, i, merged);
      var row :- MergeEntry(index, pilotage[i]);
      merged := merged + row;
      i := i + 1;
    }
    assert pilotage[i..] == [];
    assert merged + [] == merged;
    return Success(merged);
  }

  /** The script: build the table, then walk the pilotage entries appending merged records. */
  method MergeData(arrivalsDoc: Json, pilotageDoc: Json) returns (r: Result<Json, PyError>)
    ensures r == MergeSpec(arrivalsDoc, pilotageDoc)
  {
    var arrivals :- Subscript(arrivalsDoc, "data");
    var pilotage :- Subscript(pilotageDoc, "data");
    var arrivalItems :- Iterate(arrivals);
    var index :- BuildIndex(arrivalItems);
    var pilotageItems :- Iterate(pilotage);
    var merged :- AppendMerged(index, pilotageItems);
    return Success(JObj([("data", JList(merged))]));
  }
}

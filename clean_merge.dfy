/**
 * model/cleanMerge.py: renames the merged records' fields to English
 * names, drops the duplicated source fields, and for departures ("Odvez")
 * replaces the berthing time by an unberthing time of half its value.
 * The file read and write and the prints are not modelled: the script is
 * the function from the loaded document to the saved one.
 */
module CleanMerge {
  import opened Wrappers
  import opened Json
  import opened PyOps
  import opened Comprehension
  import opened CleanMergeFields

  /** `entry.get(key)` seen through `is not None`: a null value counts as missing. */
  function NonNull(v: Option<Json>): (r: Option<Json>)
    ensures r.Some? <==> v.Some? && v.value != JNull
    ensures r.Some? ==> r == v
  {
    if v == Some(JNull) then None else v
  }

  /**
   * The mapping loop after its first `n` pairs: each pair that is not
   * skipped and whose source value is present and not null has been
   * assigned under its new name.
   */
  function Rename(pairs: seq<(string, string)>, n: nat, f: Fields): (r: Fields)
    requires n <= |pairs|
    ensures Keys(r) <= Targets(pairs, n)
    ensures UniqueKeys(r)
  {
    if n == 0 then []
    else
      var front := Rename(pairs, n - 1, f);
      var value := Get(f, pairs[n - 1].0).GetOr(JNull);
      if pairs[n - 1].0 in Duplicates || value == JNull then front
      else Put(front, pairs[n - 1].1, value)
  }

  /**
   * Each target that is not skipped carries the value of its source field,
   * and is absent when the source is missing or null.
   */
  lemma {:induction false} RenameValue(pairs: seq<(string, string)>, n: nat, f: Fields, i: nat)
    requires n <= |pairs| && DistinctTargets(pairs, n)
    requires i < n && pairs[i].0 !in Duplicates
    ensures Get(Rename(pairs, n, f), pairs[i].1) == NonNull(Get(f, pairs[i].0))
  {
    if i < n - 1 {
      RenameValue(pairs, n - 1, f, i);
      if pairs[n - 1].0 !in Duplicates {
        TargetsIndex(pairs, n - 1, i);
        NotTargetIsAbsent(pairs, n - 1, pairs[n - 1].1);
      }
    } else {
      NotTargetIsAbsent(pairs, n - 1, pairs[i].1);
    }
  }

  /** The renamed fields name only targets whose source is present and not null. */
  lemma {:induction false} RenameKeys(pairs: seq<(string, string)>, n: nat, f: Fields, t: string)
    requires n <= |pairs| && t in Keys(Rename(pairs, n, f))
    ensures exists i :: 0 <= i < n && pairs[i].0 !in Duplicates && pairs[i].1 == t
                        && NonNull(Get(f, pairs[i].0)).Some?
  {
    var value := Get(f, pairs[n - 1].0).GetOr(JNull);
    if pairs[n - 1].0 in Duplicates || value == JNull || t != pairs[n - 1].1 {
      RenameKeys(pairs, n - 1, f, t);
    } else {
      assert pairs[n - 1].1 == t;
    }
  }

  /**
   * The field mapping of the script: every kept source field lands under its
   * new name, the skipped duplicates ("sifraticanja", "ugrez", ...) never
   * override the original fields they copy, and no other name appears.
   */
  lemma FieldMapping(f: Fields)
    ensures forall i, j :: 0 <= i < j < |FieldMap| && FieldMap[i].0 !in Duplicates && FieldMap[j].0 !in Duplicates ==>
              FieldMap[i].1 != FieldMap[j].1
    ensures forall i :: 0 <= i < |FieldMap| && FieldMap[i].0 !in Duplicates ==>
              Get(Rename(FieldMap, |FieldMap|, f), FieldMap[i].1) == NonNull(Get(f, FieldMap[i].0))
    ensures forall t :: t in Keys(Rename(FieldMap, |FieldMap|, f)) ==>
              exists i :: 0 <= i < |FieldMap| && FieldMap[i].0 !in Duplicates && FieldMap[i].1 == t
                          && NonNull(Get(f, FieldMap[i].0)).Some?
  {
    FieldMapDistinct();
    DistinctPairwise(FieldMap, |FieldMap|);
    forall i | 0 <= i < |FieldMap| && FieldMap[i].0 !in Duplicates
      ensures Get(Rename(FieldMap, |FieldMap|, f), FieldMap[i].1) == NonNull(Get(f, FieldMap[i].0))
    {
      RenameValue(FieldMap, |FieldMap|, f, i);
    }
    forall t | t in Keys(Rename(FieldMap, |FieldMap|, f))
      ensures exists i :: 0 <= i < |FieldMap| && FieldMap[i].0 !in Duplicates && FieldMap[i].1 == t
                          && NonNull(Get(f, FieldMap[i].0)).Some?
    {
      RenameKeys(FieldMap, |FieldMap|, f, t);
    }
  }

  /**
   * Instances: the vessel code comes from "Ticanje" and never from its copy
   * "sifraticanja", the draft from "GazLadje" and never from "ugrez"; the
   * berthing time and the action come from "TrajanjePriveza" and "Akcija".
   */
  lemma MappedFields(f: Fields)
    ensures Get(Rename(FieldMap, |FieldMap|, f), "Vessel Code") == NonNull(Get(f, "Ticanje"))
    ensures Get(Rename(FieldMap, |FieldMap|, f), "Draft") == NonNull(Get(f, "GazLadje"))
    ensures Get(Rename(FieldMap, |FieldMap|, f), "Berthing Time") == NonNull(Get(f, "TrajanjePriveza"))
    ensures Get(Rename(FieldMap, |FieldMap|, f), "Action") == NonNull(Get(f, "Akcija"))
  {
    FieldMapDistinct();
    FieldMapEntries0To3();
    FieldMapEntries8To11();
    FieldMapEntries12To15();
    SkippedSources();
    RenameValue(FieldMap, |FieldMap|, f, 0);
    RenameValue(FieldMap, |FieldMap|, f, 8);
    RenameValue(FieldMap, |FieldMap|, f, 13);
    RenameValue(FieldMap, |FieldMap|, f, 15);
  }

  /** `int(n / 2)`: the true quotient truncated toward zero. */
  function TruncHalf(n: int): (q: int)
    ensures n >= 0 ==> 0 <= n - 2 * q <= 1
    ensures n < 0 ==> -1 <= n - 2 * q <= 0
  {
    if n >= 0 then n / 2 else -((-n) / 2)
  }

  /** `cleaned_entry.get("Action") == "Odvez"` */
  predicate IsDeparture(c: Fields)
    ensures IsDeparture(c) <==> Get(c, "Action") == Some(JStr("Odvez"))
    ensures IsDeparture(c) ==> "Action" in Keys(c)
  {
    Get(c, "Action") == Some(JStr("Odvez"))
  }

  /** The departure rule applied to the renamed fields `c`. */
  function Unberth(c: Fields): (r: Result<Fields, PyError>)
    ensures r.Success? ==> "Berthing Time" !in Keys(r.value)
    ensures Get(c, "Berthing Time").GetOr(JNull) == JNull ==> r.Success?
  {
    var berthing := Get(c, "Berthing Time").GetOr(JNull);
    if berthing == JNull then Success(Pop(c, "Berthing Time"))
    else
      match PyInt(berthing)
      case Success(n) =>
        var unberthing := JStr(IntToString(TruncHalf(n)));
        Success(Pop(Put(Pop(c, "Vessel ETA"), "Unberthing Time", unberthing), "Berthing Time"))
      case Failure(e) =>
        if e.ValueError? then Success(Pop(Put(c, "Unberthing Time", JNull), "Berthing Time"))
        else Failure(e)
  }

  /** One pass of the outer loop: the cleaned entry, or the exception that aborts the script. */
  function CleanEntry(entry: Json): (r: Result<Json, PyError>)
    ensures r.Success? ==> r.value.JObj? && UniqueKeys(r.value.fields)
    ensures r.Success? ==> Keys(r.value.fields) <= Targets(FieldMap, |FieldMap|) + {"Unberthing Time"}
  {
    if !entry.JObj? then Failure(AttributeError(TypeName(entry), "get"))
    else
      var c := Rename(FieldMap, |FieldMap|, entry.fields);
      if !IsDeparture(c) then Success(JObj(c))
      else
        var d :- Unberth(c);
        Success(JObj(d))
  }

  /** Entries that are not departures keep exactly their renamed fields. */
  lemma NonDepartureUnchanged(entry: Json)
    requires entry.JObj? && Get(Rename(FieldMap, |FieldMap|, entry.fields), "Action") != Some(JStr("Odvez"))
    ensures CleanEntry(entry) == Success(JObj(Rename(FieldMap, |FieldMap|, entry.fields)))
  {
  }

  /**
   * A departure entry goes through the departure rule on its renamed fields,
   * so no cleaned "Odvez" entry keeps a berthing time.
   */
  lemma DepartureEntry(entry: Json)
    requires entry.JObj? && Get(Rename(FieldMap, |FieldMap|, entry.fields), "Action") == Some(JStr("Odvez"))
    ensures var u := Unberth(Rename(FieldMap, |FieldMap|, entry.fields));
            CleanEntry(entry) == if u.Success? then Success(JObj(u.value)) else Failure(u.error)
    ensures CleanEntry(entry).Success? ==> "Berthing Time" !in Keys(CleanEntry(entry).value.fields)
  {
  }

  /**
   * The departure rule aborts exactly when the berthing time is present and
   * `int` raises something other than a ValueError, with that exception.
   */
  lemma DepartureAborts(c: Fields)
    ensures var bt := Get(c, "Berthing Time").GetOr(JNull);
            && (Unberth(c).Failure? <==> bt != JNull && PyInt(bt).Failure? && !PyInt(bt).error.ValueError?)
            && (Unberth(c).Failure? ==> Unberth(c).error == PyInt(bt).error)
  {
    var bt := Get(c, "Berthing Time").GetOr(JNull);
    if bt != JNull && PyInt(bt).Failure? && !PyInt(bt).error.ValueError? {
      assert Unberth(c) == Failure(PyInt(bt).error);
    } else {
      assert Unberth(c).Success?;
    }
  }

  /** After the departure rule the berthing time is gone and every unrelated field is as it was. */
  lemma DepartureKeepsOthers(c: Fields)
    requires Unberth(c).Success?
    ensures "Berthing Time" !in Keys(Unberth(c).value)
    ensures forall k :: k != "Berthing Time" && k != "Vessel ETA" && k != "Unberthing Time" ==>
              Get(Unberth(c).value, k) == Get(c, k)
    ensures UniqueKeys(c) ==> UniqueKeys(Unberth(c).value)
  {
  }

  /** Without a berthing time no unberthing time is added and the ETA stays. */
  lemma DepartureWithoutBerthingTime(c: Fields)
    requires Get(c, "Berthing Time").GetOr(JNull) == JNull
    ensures Unberth(c) == Success(Pop(c, "Berthing Time"))
    ensures Get(Unberth(c).value, "Unberthing Time") == Get(c, "Unberthing Time")
    ensures Get(Unberth(c).value, "Vessel ETA") == Get(c, "Vessel ETA")
  {
  }

  /** A berthing time `int` accepts: the ETA is dropped and the unberthing time is half of it, as text. */
  lemma DepartureConverted(c: Fields)
    requires Get(c, "Berthing Time").GetOr(JNull) != JNull
    requires PyInt(Get(c, "Berthing Time").value).Success?
    ensures Unberth(c).Success?
    ensures Get(Unberth(c).value, "Unberthing Time") ==
              Some(JStr(IntToString(TruncHalf(PyInt(Get(c, "Berthing Time").value).value))))
    ensures "Vessel ETA" !in Keys(Unberth(c).value)
  {
    var n := PyInt(Get(c, "Berthing Time").value).value;
    var d := Put(Pop(c, "Vessel ETA"), "Unberthing Time", JStr(IntToString(TruncHalf(n))));
    assert Unberth(c) == Success(Pop(d, "Berthing Time"));
    assert "Unberthing Time" != "Berthing Time" && "Vessel ETA" != "Unberthing Time";
  }

  /** A berthing time `int` rejects with a ValueError: the unberthing time is null and the ETA stays. */
  lemma DepartureNotANumber(c: Fields)
    requires Get(c, "Berthing Time").GetOr(JNull) != JNull
    requires PyInt(Get(c, "Berthing Time").value).Failure?
    requires PyInt(Get(c, "Berthing Time").value).error.ValueError?
    ensures Unberth(c).Success?
    ensures Get(Unberth(c).value, "Unberthing Time") == Some(JNull)
    ensures Get(Unberth(c).value, "Vessel ETA") == Get(c, "Vessel ETA")
  {
    var d := Put(c, "Unberthing Time", JNull);
    assert Unberth(c) == Success(Pop(d, "Berthing Time"));
    assert "Unberthing Time" != "Berthing Time" && "Vessel ETA" != "Berthing Time";
    assert "Vessel ETA" != "Unberthing Time";
  }

  /** The unberthing time written for a departure reads back, with `int`, as half the berthing time. */
  lemma UnberthingTimeReadsBack(c: Fields)
    requires Get(c, "Berthing Time").Some? && Get(c, "Berthing Time").value != JNull
    requires PyInt(Get(c, "Berthing Time").value).Success?
    ensures Unberth(c).Success?
    ensures var n := PyInt(Get(c, "Berthing Time").value).value;
            && Get(Unberth(c).value, "Unberthing Time") == Some(JStr(IntToString(TruncHalf(n))))
            && PyInt(JStr(IntToString(TruncHalf(n)))) == Success(TruncHalf(n))
  {
    var n := PyInt(Get(c, "Berthing Time").value).value;
    DepartureConverted(c);
    IntStringRoundTrip(TruncHalf(n));
  }

  /** The saved document `{"data": cleaned_data}` built from the loaded one. */
  function CleanMergeSpec(doc: Json): (r: Result<Json, PyError>)
    ensures r.Success? ==> && r.value.JObj? && |r.value.fields| == 1
                           && r.value.fields[0].0 == "data" && r.value.fields[0].1.JList?
    ensures r.Success? ==> && Subscript(doc, "data").Success?
                           && Iterate(Subscript(doc, "data").value).Success?
                           && |r.value.fields[0].1.items| == |Iterate(Subscript(doc, "data").value).value|
  {
    var merged :- Subscript(doc, "data");
    var entries :- Iterate(merged);
    var cleaned :- MapAll(entries, CleanEntry);
    Success(JObj([("data", JList(cleaned))]))
  }

  /**
   * The saved list holds exactly one cleaned entry per merged record, in
   * the same order; the script aborts exactly when cleaning some record raises.
   */
  lemma OneEntryPerRecord(doc: Json, entries: seq<Json>)
    requires Subscript(doc, "data") == Success(JList(entries))
    ensures CleanMergeSpec(doc).Success? <==> forall i :: 0 <= i < |entries| ==> CleanEntry(entries[i]).Success?
    ensures CleanMergeSpec(doc).Success? ==>
              var cleaned := MapAll(entries, CleanEntry).value;
              && CleanMergeSpec(doc) == Success(JObj([("data", JList(cleaned))]))
              && |cleaned| == |entries|
              && forall i :: 0 <= i < |entries| ==> CleanEntry(entries[i]) == Success(cleaned[i])
  {
    MapAllEntries(entries, CleanEntry);
  }

  /** The inner loop over `field_map.items()`. */
  method RenameFields(pairs: seq<(string, string)>, entry: Fields) returns (c: Fields)
    ensures c == Rename(pairs, |pairs|, entry)
  {
    c := [];
    for j := 0 to |pairs|
      invariant c == Rename(pairs, j, entry)
    {
      var (original, target) := pairs[j];
      if original in Duplicates {
        continue;
      }
      var value := Get(entry, original).GetOr(JNull);
      if value != JNull {
        c := Put(c, target, value);
      }
    }
  }

  /** The body of the outer loop for one entry. */
  method CleanOne(entry: Json) returns (r: Result<Json, PyError>)
    ensures r == CleanEntry(entry)
  {
    if !entry.JObj? {
      return Failure(AttributeError(TypeName(entry), "get"));
    }
    var c := RenameFields(FieldMap, entry.fields);
    if Get(c, "Action") == Some(JStr("Odvez")) {
      var berthing := Get(c, "Berthing Time").GetOr(JNull);
      if berthing != JNull {
        var converted := PyInt(berthing);
        if converted.Success? {
          c := Pop(c, "Vessel ETA");
          c := Put(c, "Unberthing Time", JStr(IntToString(TruncHalf(converted.value))));
        } else if converted.error.ValueError? {
          c := Put(c, "Unberthing Time", JNull);
        } else {
          return Failure(converted.error);
        }
      }
      c := Pop(c, "Berthing Time");
    }
    return Success(JObj(c));
  }

  /** The script: clean every merged record in order. */
  method CleanMergeScript(doc: Json) returns (r: Result<Json, PyError>)
    ensures r == CleanMergeSpec(doc)
  {
    var merged :- Subscript(doc, "data");
    var entries :- Iterate(merged);
    var cleaned: seq<Json> := [];
    for i := 0 to |entries|
      invariant MapAll(entries[..i], CleanEntry) == Success(cleaned)
    {
      var e := CleanOne(entries[i]);
      if e.Failure? {
        MapAllAborts(entries, CleanEntry, i);
        return Failure(e.error);
      }
      MapAllSnoc(entries, CleanEntry, i, cleaned);
      cleaned := cleaned + [e.value];
    }
    assert entries[..|entries|] == entries;
    return Success(JObj([("data", JList(cleaned))]));
  }
}

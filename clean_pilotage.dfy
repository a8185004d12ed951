/**
 * model/cleanPilotage.py: keeps the pilotage entries for container ships.
 * The file read and write and the closing print are not modelled.
 */
module CleanPilotage {
  import opened Wrappers
  import opened Json
  import opened PyOps
  import opened Comprehension

  /** The comprehension's test: `entry.get("LadjaTipOznaka") == "CT"`, exact and case-sensitive. */
  function IsContainerShip(entry: Json): (r: Result<bool, PyError>)
    ensures r == Success(true) <==> entry.JObj? && Get(entry.fields, "LadjaTipOznaka") == Some(JStr("CT"))
    ensures r.Failure? <==> !entry.JObj?
  {
    var tag :- MethodGet(entry, "LadjaTipOznaka");
    Success(tag == Some(JStr("CT")))
  }

  /** The saved document `{"data": [...]}` built from the loaded one; `data["data"]` is required. */
  function CleanPilotage(doc: Json): (r: Result<Json, PyError>)
    ensures doc.JObj? && "data" !in Keys(doc.fields) ==> r == Failure(KeyError("data"))
    ensures r.Success? ==> && r.value.JObj? && |r.value.fields| == 1
                           && r.value.fields[0].0 == "data" && r.value.fields[0].1.JList?
    ensures r.Success? ==> && Subscript(doc, "data").Success?
                           && Iterate(Subscript(doc, "data").value).Success?
                           && |r.value.fields[0].1.items| <= |Iterate(Subscript(doc, "data").value).value|
  {
    var data :- Subscript(doc, "data");
    var items :- Iterate(data);
    var kept :- Filter(items, IsContainerShip);
    Success(JObj([("data", JList(kept))]))
  }

  /** A document without "data" aborts the script with KeyError. */
  lemma MissingDataFails(doc: Json)
    requires doc.JObj? && "data" !in Keys(doc.fields)
    ensures CleanPilotage(doc) == Failure(KeyError("data"))
  {
  }

  /** For a loaded list, the script aborts exactly when some entry is not an object. */
  lemma AbortsOnNonObject(doc: Json, items: seq<Json>)
    requires doc.JObj? && Get(doc.fields, "data") == Some(JList(items))
    ensures CleanPilotage(doc).Failure? <==> exists i :: 0 <= i < |items| && !items[i].JObj?
  {
    assert Subscript(doc, "data") == Success(JList(items));
    assert Iterate(JList(items)) == Success(items);
    FilterFailure(items, IsContainerShip);
  }

  /**
   * The saved list holds exactly the entries labelled "CT", in their
   * original order: every kept entry has the label, and every labelled entry
   * is kept as often as it occurs.
   */
  lemma KeepsExactlyContainerShips(doc: Json, items: seq<Json>, kept: seq<Json>)
    requires doc.JObj? && Get(doc.fields, "data") == Some(JList(items))
    requires CleanPilotage(doc) == Success(JObj([("data", JList(kept))]))
    ensures forall i :: 0 <= i < |kept| ==> kept[i].JObj? && Get(kept[i].fields, "LadjaTipOznaka") == Some(JStr("CT"))
    ensures forall i :: 0 <= i < |items| && IsContainerShip(items[i]) == Success(true)
              ==> multiset(kept)[items[i]] == multiset(items)[items[i]]
    ensures SubsequenceOf(kept, items)
    ensures |kept| <= |items|
  {
    assert Subscript(doc, "data") == Success(JList(items));
    assert Iterate(JList(items)) == Success(items);
    assert Filter(items, IsContainerShip) == Success(kept);
    FilterSound(items, IsContainerShip, kept);
    FilterComplete(items, IsContainerShip, kept);
    FilterOrder(items, IsContainerShip, kept);
  }

  /** Running the script on its own output changes nothing. */
  lemma Idempotent(doc: Json)
    requires CleanPilotage(doc).Success?
    ensures CleanPilotage(CleanPilotage(doc).value) == CleanPilotage(doc)
  {
    var items := Iterate(Subscript(doc, "data").value).value;
    var kept := Filter(items, IsContainerShip).value;
    FilterIdempotent(items, IsContainerShip, kept);
    var out := JObj([("data", JList(kept))]);
    assert Get(out.fields, "data") == Some(JList(kept)) by {
      GetUnique(out.fields, 0);
    }
  }
}

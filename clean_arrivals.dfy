/**
 * model/cleanArrivals.py: keeps the arrivals whose cargo is containers.
 * The file read and write and the closing print are not modelled: the
 * script is the function from the loaded document to the saved one.
 */
module CleanArrivals {
  import opened Wrappers
  import opened Json
  import opened PyOps
  import opened Comprehension

  /** `entry.get("Tovor", "")` */
  function Cargo(f: Fields): Json {
    Get(f, "Tovor").GetOr(JStr(""))
  }

  /** The comprehension's test: `entry.get("Tovor", "").strip() == "KONTEJNERJI"`. */
  function IsContainerCargo(entry: Json): (r: Result<bool, PyError>)
    ensures r == Success(true) <==> entry.JObj? && Cargo(entry.fields).JStr? && Strip(Cargo(entry.fields).s) == "KONTEJNERJI"
    ensures r.Failure? <==> !entry.JObj? || !Cargo(entry.fields).JStr?
    ensures entry.JObj? && "Tovor" !in Keys(entry.fields) ==> r == Success(false)
  {
    var tovor :- MethodGet(entry, "Tovor");
    match tovor.GetOr(JStr(""))
    case JStr(s) => Success(Strip(s) == "KONTEJNERJI")
    case other => Failure(AttributeError(TypeName(other), "strip"))
  }

  /** The saved document `{"data": [...]}` built from the loaded one. */
  function CleanArrivals(doc: Json): (r: Result<Json, PyError>)
    ensures !doc.JObj? ==> r.Failure?
    ensures r.Success? ==> && r.value.JObj? && |r.value.fields| == 1
                           && r.value.fields[0].0 == "data" && r.value.fields[0].1.JList?
  {
    if !doc.JObj? then Failure(AttributeError(TypeName(doc), "get"))
    else
      var items :- Iterate(Get(doc.fields, "data").GetOr(JList([])));
      var kept :- Filter(items, IsContainerCargo);
      Success(JObj([("data", JList(kept))]))
  }

  /** A document without a "data" key yields an empty list. */
  lemma MissingDataIsEmpty(doc: Json)
    requires doc.JObj? && "data" !in Keys(doc.fields)
    ensures CleanArrivals(doc) == Success(JObj([("data", JList([]))]))
  {
  }

  /**
   * For a loaded list, the script aborts exactly when some entry is not an
   * object or has a "Tovor" that is not a string.
   */
  lemma AbortsOnBadEntry(doc: Json, items: seq<Json>)
    requires doc.JObj? && Get(doc.fields, "data") == Some(JList(items))
    ensures CleanArrivals(doc).Failure? <==>
              exists i :: 0 <= i < |items| && (!items[i].JObj? || !Cargo(items[i].fields).JStr?)
  {
    assert Iterate(JList(items)) == Success(items);
    FilterFailure(items, IsContainerCargo);
  }

  /**
   * The saved list holds exactly the container entries: each kept entry's
   * trimmed "Tovor" is "KONTEJNERJI", every such entry is kept as often as it
   * occurs, and the kept entries keep their order.
   */
  lemma KeepsExactlyContainers(doc: Json, items: seq<Json>, kept: seq<Json>)
    requires doc.JObj? && Get(doc.fields, "data") == Some(JList(items))
    requires CleanArrivals(doc) == Success(JObj([("data", JList(kept))]))
    ensures forall i :: 0 <= i < |kept| ==>
              kept[i].JObj? && Cargo(kept[i].fields).JStr? && Strip(Cargo(kept[i].fields).s) == "KONTEJNERJI"
    ensures forall i :: 0 <= i < |items| && IsContainerCargo(items[i]) == Success(true)
              ==> multiset(kept)[items[i]] == multiset(items)[items[i]]
    ensures SubsequenceOf(kept, items)
    ensures |kept| <= |items|
  {
    assert Iterate(JList(items)) == Success(items);
    assert Filter(items, IsContainerCargo) == Success(kept);
    FilterSound(items, IsContainerCargo, kept);
    FilterComplete(items, IsContainerCargo, kept);
    FilterOrder(items, IsContainerCargo, kept);
  }

  /** Running the script on its own output changes nothing. */
  lemma Idempotent(doc: Json)
    requires CleanArrivals(doc).Success?
    ensures CleanArrivals(CleanArrivals(doc).value) == CleanArrivals(doc)
  {
    var items := Iterate(Get(doc.fields, "data").GetOr(JList([]))).value;
    var kept := Filter(items, IsContainerCargo).value;
    FilterIdempotent(items, IsContainerCargo, kept);
    var out := JObj([("data", JList(kept))]);
    assert Get(out.fields, "data") == Some(JList(kept)) by {
      GetUnique(out.fields, 0);
    }
  }
}

/**
 * server/app.py, `get_data`: chooses the list to serve out of the loaded
 * document, keeps the entries with a given "Action" and returns at most a
 * hundred of them, or an error body. Reading and parsing the file is left
 * to the caller: the handler receives the parsed document, or the message
 * of the exception that reading or parsing raised.
 */
module ServerApp {
  import opened Wrappers
  import opened Json
  import opened PyOps
  import opened Comprehension

  /** Most entries one response carries: `filtered[:100]`. */
  const MaxRows := 100

  /** The comprehension test `item.get("Action") == action`. */
  function ActionIs(action: string): Json -> Result<bool, PyError> {
    item => (var v :- MethodGet(item, "Action"); Success(v == Some(JStr(action))))
  }

  /** `s[:n]` */
  function Take(s: seq<Json>, n: nat): (r: seq<Json>)
    ensures |r| == if |s| <= n then |s| else n
    ensures r == s[..|r|]
  {
    if |s| <= n then s else s[..n]
  }

  /** The response body `{"data": rows}`. */
  function DataBody(rows: seq<Json>): Json {
    JObj([("data", JList(rows))])
  }

  /** The response body `{"error": message}`. */
  function ErrorBody(message: string): Json {
    JObj([("error", JStr(message))])
  }

  /**
   * The search loop over `data.items()`: the first value that is a list,
   * with its position.
   */
  function FirstList(items: Fields): (r: Option<nat>)
    ensures r.None? <==> forall i :: 0 <= i < |items| ==> !items[i].1.JList?
    ensures r.Some? ==> r.value < |items| && items[r.value].1.JList?
    ensures r.Some? ==> forall j :: 0 <= j < r.value ==> !items[j].1.JList?
    decreases |items|
  {
    if items == [] then None
    else if items[0].1.JList? then Some(0)
    else
      match FirstList(items[1..])
      case None => None
      case Some(i) => Some(i + 1)
  }

  /** The filtered list, at most a hundred rows of it, or the message of the exception the filter raised. */
  function Serve(entries: seq<Json>, action: string): (r: Json)
    ensures IsResponse(r)
  {
    match Filter(entries, ActionIs(action))
    case Success(filtered) => DataBody(Take(filtered, MaxRows))
    case Failure(e) => ErrorBody(Message(e))
  }

  /** The object branch: the first list value, in item order, filtered with "Privez". */
  function ServeObject(items: Fields): (r: Json)
    ensures IsResponse(r)
    ensures (forall i :: 0 <= i < |items| ==> !items[i].1.JList?) ==> r == ErrorBody("No list found in JSON dict values")
  {
    match FirstList(items)
    case Some(i) => Serve(items[i].1.items, "Privez")
    case None => ErrorBody("No list found in JSON dict values")
  }

  /** The handler, from the outcome of reading and parsing "k.json". */
  function GetData(loaded: Result<Json, string>): (r: Json)
    ensures IsResponse(r)
  {
    match loaded
    case Failure(message) => ErrorBody(message)
    case Success(data) =>
      match data
      case JObj(fields) => ServeObject(Items(fields))
      case JList(entries) => Serve(entries, "Privezana")
      case _ => ErrorBody("Unsupported JSON structure")
  }

  /**
   * Serving a list either fails as a whole, with the message of the first
   * entry that is not an object, or returns the first hundred entries whose
   * "Action" is exactly `action` (all of them when fewer match), in their
   * original order.
   */
  lemma ServeRows(entries: seq<Json>, action: string)
    ensures Filter(entries, ActionIs(action)).Failure? <==> exists i :: 0 <= i < |entries| && !entries[i].JObj?
    ensures forall i :: 0 <= i < |entries| && !entries[i].JObj? && (forall j :: 0 <= j < i ==> entries[j].JObj?) ==>
              Serve(entries, action) == ErrorBody(Message(AttributeError(TypeName(entries[i]), "get")))
    ensures Filter(entries, ActionIs(action)).Success? ==>
              var filtered := Filter(entries, ActionIs(action)).value;
              && Serve(entries, action) == DataBody(filtered[..if |filtered| <= MaxRows then |filtered| else MaxRows])
              && (forall i :: 0 <= i < |filtered| ==>
                    filtered[i].JObj? && Get(filtered[i].fields, "Action") == Some(JStr(action)))
              && (forall i :: 0 <= i < |entries| && ActionIs(action)(entries[i]) == Success(true)
                    ==> multiset(filtered)[entries[i]] == multiset(entries)[entries[i]])
              && SubsequenceOf(filtered, entries)
  {
    FilterFailure(entries, ActionIs(action));
    if Filter(entries, ActionIs(action)).Success? {
      ServeMatches(entries, action, Filter(entries, ActionIs(action)).value);
    }
  }

  lemma ServeMatches(entries: seq<Json>, action: string, filtered: seq<Json>)
    requires Filter(entries, ActionIs(action)) == Success(filtered)
    ensures Serve(entries, action) == DataBody(filtered[..if |filtered| <= MaxRows then |filtered| else MaxRows])
    ensures forall i :: 0 <= i < |filtered| ==>
              filtered[i].JObj? && Get(filtered[i].fields, "Action") == Some(JStr(action))
    ensures forall i :: 0 <= i < |entries| && ActionIs(action)(entries[i]) == Success(true)
              ==> multiset(filtered)[entries[i]] == multiset(entries)[entries[i]]
    ensures SubsequenceOf(filtered, entries)
  {
    var test := ActionIs(action);
    FilterSound(entries, test, filtered);
    FilterComplete(entries, test, filtered);
    FilterOrder(entries, test, filtered);
  }

  /** For an object, only the first list value, in key order, is served, with the literal "Privez". */
  lemma ObjectServesFirstList(fields: Fields, i: nat)
    requires i < |Items(fields)| && Items(fields)[i].1.JList?
    requires forall j :: 0 <= j < i ==> !Items(fields)[j].1.JList?
    ensures GetData(Success(JObj(fields))) == Serve(Items(fields)[i].1.items, "Privez")
  {
    FirstListAt(Items(fields), i);
  }

  /** The search stops at the first list value and at no other. */
  lemma {:induction false} FirstListAt(items: Fields, i: nat)
    requires i < |items| && items[i].1.JList?
    requires forall j :: 0 <= j < i ==> !items[j].1.JList?
    ensures FirstList(items) == Some(i)
    decreases i
  {
    if i > 0 {
      assert !items[0].1.JList?;
      assert forall j :: 0 <= j < i - 1 ==> items[1..][j] == items[j + 1];
      FirstListAt(items[1..], i - 1);
    }
  }

  /** An object without a list value yields the error body. */
  lemma ObjectWithoutList(fields: Fields)
    requires forall k :: k in Keys(fields) ==> !Get(fields, k).value.JList?
    ensures GetData(Success(JObj(fields))) == ErrorBody("No list found in JSON dict values")
  {
    var items := Items(fields);
    NoListItem(fields, items);
    assert FirstList(items) == None;
  }

  lemma NoListItem(fields: Fields, items: Fields)
    requires items == Items(fields)
    requires forall k :: k in Keys(fields) ==> !Get(fields, k).value.JList?
    ensures forall i :: 0 <= i < |items| ==> !items[i].1.JList?
  {
    forall i | 0 <= i < |items|
      ensures !items[i].1.JList?
    {
      KeysIndex(items, items[i].0);
      GetUnique(items, i);
    }
  }

  /** A top-level list is served with the literal "Privezana". */
  lemma ListServesPrivezana(entries: seq<Json>)
    ensures GetData(Success(JList(entries))) == Serve(entries, "Privezana")
  {
  }

  /** A body with the single key "data" holding at most a hundred rows, or the single key "error" holding a string. */
  predicate IsResponse(body: Json) {
    && body.JObj? && |body.fields| == 1
    && ((body.fields[0].0 == "data" && body.fields[0].1.JList? && |body.fields[0].1.items| <= MaxRows)
        || (body.fields[0].0 == "error" && body.fields[0].1.JStr?))
  }

  /** Every outcome of the handler, exception or not, is a well-formed response: never a partial result. */
  lemma ResponseShape(loaded: Result<Json, string>)
    ensures IsResponse(GetData(loaded))
  {
    match loaded
    case Failure(message) =>
    case Success(data) =>
      match data
      case JObj(fields) => ObjectShape(Items(fields));
      case JList(entries) => ServeShape(entries, "Privezana");
      case _ =>
  }

  lemma ObjectShape(items: Fields)
    ensures IsResponse(ServeObject(items))
  {
    match FirstList(items) {
      case Some(i) => ServeShape(items[i].1.items, "Privez");
      case None =>
    }
  }

  lemma ServeShape(entries: seq<Json>, action: string)
    ensures IsResponse(Serve(entries, action))
  {
  }

  /** Other top-level shapes yield "Unsupported JSON structure"; a failed read yields its message. */
  lemma OtherShapes(loaded: Result<Json, string>)
    ensures loaded.Failure? ==> GetData(loaded) == ErrorBody(loaded.error)
    ensures loaded.Success? && !loaded.value.JObj? && !loaded.value.JList? ==>
              GetData(loaded) == ErrorBody("Unsupported JSON structure")
  {
  }
}

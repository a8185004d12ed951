/**
 * client/src/components/EditableRow.jsx: the conversion between the
 * stored "D. M. YYYY HH:MM:SS" date-times and the separate date
 * ("YYYY-MM-DD") and time ("HH:MM") inputs of the editing form, and the
 * row's `editedRecord` state that the inputs update.
 */
module EditableRow {

  /** JavaScript `s.split(sep)` for a one-character separator. */
  function Split(s: string, sep: char): (r: seq<string>)
    ensures |r| >= 1
    ensures forall i :: 0 <= i < |r| ==> sep !in r[i]
    decreases |s|
  {
    if s == [] then [""]
    else
      var rest := Split(s[1..], sep);
      if s[0] == sep then [""] + rest
      else [[s[0]] + rest[0]] + rest[1..]
  }

  /** JavaScript `parts.join(sep)`; `Split` undoes it (see SplitJoin). */
  function Join(parts: seq<string>, sep: char): (r: string)
    requires |parts| >= 1
    ensures |r| >= |parts[|parts| - 1]| && r[|r| - |parts[|parts| - 1]|..] == parts[|parts| - 1]
    decreases |parts|
  {
    if |parts| == 1 then parts[0] else parts[0] + [sep] + Join(parts[1..], sep)
  }

  /** Splitting a word free of the separator in front of a string extends the first piece. */
  lemma {:induction false} SplitPrefix(w: string, s: string, sep: char)
    requires sep !in w
    ensures Split(w + s, sep) == [w + Split(s, sep)[0]] + Split(s, sep)[1..]
    decreases |w|
  {
    if w != [] {
      assert (w + s)[1..] == w[1..] + s;
      assert (w + s)[0] == w[0] && w[0] != sep;
      SplitPrefix(w[1..], s, sep);
      var rest := Split(w[1..] + s, sep);
      assert Split(w + s, sep) == [[w[0]] + rest[0]] + rest[1..];
      assert rest[0] == w[1..] + Split(s, sep)[0] && rest[1..] == Split(s, sep)[1..];
      assert [w[0]] + (w[1..] + Split(s, sep)[0]) == w + Split(s, sep)[0];
    } else {
      assert w + s == s && w + Split(s, sep)[0] == Split(s, sep)[0];
    }
  }

  /** Splitting a join of separator-free pieces gives back the pieces. */
  lemma {:induction false} SplitJoin(parts: seq<string>, sep: char)
    requires |parts| >= 1
    requires forall i :: 0 <= i < |parts| ==> sep !in parts[i]
    ensures Split(Join(parts, sep), sep) == parts
    decreases |parts|
  {
    if |parts| == 1 {
      SplitPrefix(parts[0], [], sep);
      assert parts[0] + [] == parts[0];
    } else {
      var tail := Join(parts[1..], sep);
      assert Join(parts, sep) == parts[0] + ([sep] + tail);
      SplitJoin(parts[1..], sep);
      assert Split([sep] + tail, sep) == [""] + parts[1..] by {
        assert ([sep] + tail)[1..] == tail;
      }
      SplitPrefix(parts[0], [sep] + tail, sep);
      assert parts[0] + "" == parts[0];
      assert parts == [parts[0]] + parts[1..];
    }
  }

  /** JavaScript `s.replace(c, "")` with a one-character pattern: only the first occurrence goes. */
  function RemoveFirst(s: string, c: char): (r: string)
    ensures c !in s ==> r == s
    ensures c in s ==> |r| == |s| - 1
    decreases |s|
  {
    if s == [] then []
    else if s[0] == c then s[1..]
    else [s[0]] + RemoveFirst(s[1..], c)
  }

  /** Removing the first `c` from a word followed by `c` leaves the word and whatever came after. */
  lemma {:induction false} RemoveFirstAfter(w: string, c: char, t: string)
    requires c !in w
    ensures RemoveFirst(w + [c] + t, c) == w + t
    decreases |w|
  {
    if w != [] {
      var u := w + [c] + t;
      assert u[0] == w[0] && w[0] != c;
      assert u[1..] == w[1..] + [c] + t;
      RemoveFirstAfter(w[1..], c, t);
      assert RemoveFirst(u, c) == [w[0]] + (w[1..] + t);
      assert [w[0]] + (w[1..] + t) == w + t;
    }
  }

  /** JavaScript `s.padStart(2, "0")`. */
  function PadStart2(s: string): (r: string)
    ensures |r| == if |s| >= 2 then |s| else 2
    ensures |s| >= 2 ==> r == s
    ensures r[|r| - |s|..] == s && forall i :: 0 <= i < |r| - |s| ==> r[i] == '0'
  {
    if |s| >= 2 then s else if |s| == 1 then "0" + s else "00"
  }

  /** JavaScript `s.slice(0, 5)`, which copes with strings shorter than five. */
  function Slice5(s: string): (r: string)
    ensures |r| <= 5 && |r| <= |s| && r == s[..|r|]
    ensures |s| >= 5 ==> |r| == 5
    ensures |s| < 5 ==> r == s
  {
    if |s| <= 5 then s else s[..5]
  }

  /** Destructuring `const [a, b, c] = parts`: a missing element renders as "undefined". */
  function Nth(parts: seq<string>, i: nat): (r: string)
    ensures i < |parts| ==> r == parts[i]
    ensures i >= |parts| ==> r == "undefined"
  {
    if i < |parts| then parts[i] else "undefined"
  }

  /** The pair held by the date and time inputs. */
  datatype DateTime = DateTime(date: string, time: string)

  const NoDateTime := DateTime("", "")

  /**
   * `parseCustomDateTime`: an empty string (or a missing field, which
   * JavaScript treats the same way) and a string of fewer than four
   * space-separated tokens give the empty pair; otherwise day and month
   * lose their first "." and are padded to two digits, and the time is
   * the first five characters of the fourth token.
   */
  function ParseCustomDateTime(s: string): (r: DateTime)
    ensures r.date == "" <==> |Split(s, ' ')| < 4
    ensures r.date == "" ==> r == NoDateTime
    ensures |r.time| <= 5
  {
    if s == "" then NoDateTime
    else
      var parts := Split(s, ' ');
      if |parts| < 4 then NoDateTime
      else
        var day := PadStart2(RemoveFirst(parts[0], '.'));
        var month := PadStart2(RemoveFirst(parts[1], '.'));
        var year := parts[2];
        var time := Slice5(parts[3]);
        DateTime(Join([year, month, day], '-'), time)
  }

  /**
   * `formatCustomDateTime`: the empty string when either half is empty,
   * otherwise "DD. MM. YYYY HH:MM:00" from the "-"-separated date.
   */
  function FormatCustomDateTime(date: string, time: string): (r: string)
    ensures r == "" <==> date == "" || time == ""
    ensures r != "" ==> |r| >= 3 && r[|r| - 3..] == ":00"
  {
    if date == "" || time == "" then ""
    else
      var parts := Split(date, '-');
      var year, month, day := Nth(parts, 0), Nth(parts, 1), Nth(parts, 2);
      Join([day + ".", month + ".", year, time + ":00"], ' ')
  }

  /** A piece of a date that contains none of the separators the two formats use. */
  predicate Plain(w: string) {
    ' ' !in w && '-' !in w && '.' !in w
  }

  /** A plain year, month and day split back out of their "-"-join. */
  lemma DateParts(y: string, m: string, d: string)
    requires Plain(y) && Plain(m) && Plain(d)
    ensures Split(Join([y, m, d], '-'), '-') == [y, m, d]
  {
    SplitJoin([y, m, d], '-');
  }

  /** Parsing the four tokens of a well-formed date-time string. */
  lemma ParseTokens(d: string, m: string, y: string, t: string)
    requires Plain(d) && Plain(m) && Plain(y) && ' ' !in t
    ensures ParseCustomDateTime(Join([d + ".", m + ".", y, t], ' '))
            == DateTime(Join([y, PadStart2(m), PadStart2(d)], '-'), Slice5(t))
  {
    var tokens := [d + ".", m + ".", y, t];
    assert forall i :: 0 <= i < 4 ==> ' ' !in tokens[i];
    SplitJoin(tokens, ' ');
    RemoveFirstAfter(d, '.', []);
    RemoveFirstAfter(m, '.', []);
    assert d + ['.'] + [] == d + "." && d + [] == d;
    assert m + ['.'] + [] == m + "." && m + [] == m;
  }

  /** Tokens after the fourth are ignored. */
  lemma ExtraTokensIgnored(ts: seq<string>)
    requires |ts| >= 4
    requires forall i :: 0 <= i < |ts| ==> ' ' !in ts[i]
    ensures ParseCustomDateTime(Join(ts, ' ')) == ParseCustomDateTime(Join(ts[..4], ' '))
  {
    var a, b := Join(ts, ' '), Join(ts[..4], ' ');
    SplitJoin(ts, ' ');
    SplitJoin(ts[..4], ' ');
    assert a != "" && b != "" by {
      assert Split("", ' ') == [""];
    }
    assert Split(a, ' ')[..4] == Split(b, ' ');
  }

  /**
   * Round trip: a date "Y-M-D" whose parts hold no separator and whose
   * month and day have at least two digits, and a five-character time,
   * come back unchanged from formatting and parsing again.
   */
  lemma RoundTrip(y: string, m: string, d: string, time: string)
    requires Plain(y) && Plain(m) && Plain(d) && |m| >= 2 && |d| >= 2
    requires |time| == 5 && ' ' !in time
    ensures ParseCustomDateTime(FormatCustomDateTime(Join([y, m, d], '-'), time))
            == DateTime(Join([y, m, d], '-'), time)
  {
    DateParts(y, m, d);
    ParseTokens(d, m, y, time + ":00");
    assert Slice5(time + ":00") == time;
  }

  /** What the form writes back after reading a stored value: format after parse. */
  function Normalise(s: string): string {
    var dt := ParseCustomDateTime(s);
    FormatCustomDateTime(dt.date, dt.time)
  }

  /**
   * Normalisation: a well-formed "D. M. YYYY HH:MM:SS" becomes
   * "DD. MM. YYYY HH:MM:00" (day and month padded, seconds zeroed), and
   * normalising twice changes nothing more.
   */
  lemma NormaliseWellFormed(d: string, m: string, y: string, t: string)
    requires Plain(d) && Plain(m) && Plain(y) && ' ' !in t && |t| >= 5
    ensures Normalise(Join([d + ".", m + ".", y, t], ' '))
            == Join([PadStart2(d) + ".", PadStart2(m) + ".", y, Slice5(t) + ":00"], ' ')
    ensures Normalise(Normalise(Join([d + ".", m + ".", y, t], ' ')))
            == Normalise(Join([d + ".", m + ".", y, t], ' '))
  {
    var pd, pm, t' := PadStart2(d), PadStart2(m), Slice5(t) + ":00";
    NormaliseOnce(d, m, y, t);
    assert Normalise(Join([d + ".", m + ".", y, t], ' ')) == Join([pd + ".", pm + ".", y, t'], ' ');
    NormaliseAgain(d, m, y, t);
  }

  /** The second pass finds the zero-padded tokens and the five-character time and keeps them. */
  lemma NormaliseAgain(d: string, m: string, y: string, t: string)
    requires Plain(d) && Plain(m) && Plain(y) && ' ' !in t && |t| >= 5
    ensures Normalise(Join([PadStart2(d) + ".", PadStart2(m) + ".", y, Slice5(t) + ":00"], ' '))
            == Join([PadStart2(d) + ".", PadStart2(m) + ".", y, Slice5(t) + ":00"], ' ')
  {
    var pd, pm, t' := PadStart2(d), PadStart2(m), Slice5(t) + ":00";
    assert Slice5(t') == Slice5(t);
    assert ' ' !in t' && |t'| >= 5;
    PadPlain(d);
    PadPlain(m);
    assert PadStart2(pd) == pd && PadStart2(pm) == pm;
    NormaliseOnce(pd, pm, y, t');
  }

  lemma NormaliseOnce(d: string, m: string, y: string, t: string)
    requires Plain(d) && Plain(m) && Plain(y) && ' ' !in t && |t| >= 5
    ensures Normalise(Join([d + ".", m + ".", y, t], ' '))
            == Join([PadStart2(d) + ".", PadStart2(m) + ".", y, Slice5(t) + ":00"], ' ')
  {
    ParseTokens(d, m, y, t);
    var pm, pd := PadStart2(m), PadStart2(d);
    PadPlain(m);
    PadPlain(d);
    DateParts(y, pm, pd);
    var date := Join([y, pm, pd], '-');
    assert date != "";
    assert Slice5(t) != "";
    assert Nth(Split(date, '-'), 0) == y && Nth(Split(date, '-'), 1) == pm && Nth(Split(date, '-'), 2) == pd;
  }

  /** Padding with zeros adds no separator. */
  lemma PadPlain(s: string)
    requires Plain(s)
    ensures Plain(PadStart2(s))
  {
    var r := PadStart2(s);
    forall i | 0 <= i < |r|
      ensures r[i] != ' ' && r[i] != '-' && r[i] != '.'
    {
      if i >= |r| - |s| {
        assert r[i] == s[i - (|r| - |s|)];
      }
    }
  }

  /** `handleDateTimeChange`: the new stored value after `kind` input changed to `value`. */
  function DateTimeEdited(current: string, kind: string, value: string): (r: string)
    ensures kind == "date" ==> (r == "" <==> value == "" || ParseCustomDateTime(current).time == "")
    ensures kind == "time" ==> (r == "" <==> value == "" || ParseCustomDateTime(current).date == "")
    ensures ParseCustomDateTime(current) == NoDateTime && (kind == "date" || kind == "time") ==> r == ""
  {
    var dt := ParseCustomDateTime(current);
    var newDate := if kind == "date" then value else dt.date;
    var newTime := if kind == "time" then value else dt.time;
    FormatCustomDateTime(newDate, newTime)
  }

  /** Changing the date keeps the time read from the stored value. */
  lemma DateEditKeepsTime(current: string, y: string, m: string, d: string)
    requires Plain(y) && Plain(m) && Plain(d) && |m| >= 2 && |d| >= 2
    requires |ParseCustomDateTime(current).time| == 5 && ' ' !in ParseCustomDateTime(current).time
    ensures ParseCustomDateTime(DateTimeEdited(current, "date", Join([y, m, d], '-')))
            == DateTime(Join([y, m, d], '-'), ParseCustomDateTime(current).time)
  {
    RoundTrip(y, m, d, ParseCustomDateTime(current).time);
  }

  /** Changing the time keeps the date read from the stored value. */
  lemma TimeEditKeepsDate(current: string, y: string, m: string, d: string, time: string)
    requires ParseCustomDateTime(current).date == Join([y, m, d], '-')
    requires Plain(y) && Plain(m) && Plain(d) && |m| >= 2 && |d| >= 2
    requires |time| == 5 && ' ' !in time
    ensures ParseCustomDateTime(DateTimeEdited(current, "time", time)) == DateTime(Join([y, m, d], '-'), time)
  {
    RoundTrip(y, m, d, time);
  }

  /** The stored value of a field; a field the record lacks reads as empty. */
  function FieldOf(rec: map<string, string>, field: string): string {
    if field in rec then rec[field] else ""
  }

  /** The row's `editedRecord` state. */
  class RowState {
    var editedRecord: map<string, string>

    /** `useState({ ...record })` */
    constructor (record: map<string, string>)
      ensures editedRecord == record
    {
      editedRecord := record;
    }

    /** `handleChange`: the named field takes the new value; every other field is unchanged. */
    method HandleChange(name: string, value: string)
      modifies this
      ensures editedRecord.Keys == old(editedRecord).Keys + {name}
      ensures editedRecord[name] == value
      ensures forall k :: k in old(editedRecord) && k != name ==> editedRecord[k] == old(editedRecord)[k]
    {
      editedRecord := editedRecord[name := value];
    }

    /**
     * `handleDateTimeChange`: re-reads the field's stored value, replaces
     * the date or the time half and stores the formatted result; every
     * other field is unchanged.
     */
    method HandleDateTimeChange(field: string, kind: string, value: string)
      modifies this
      ensures editedRecord.Keys == old(editedRecord).Keys + {field}
      ensures editedRecord[field] == DateTimeEdited(FieldOf(old(editedRecord), field), kind, value)
      ensures forall k :: k in old(editedRecord) && k != field ==> editedRecord[k] == old(editedRecord)[k]
    {
      var current := ParseCustomDateTime(FieldOf(editedRecord, field));
      var newDate := if kind == "date" then value else current.date;
      var newTime := if kind == "time" then value else current.time;
      var formatted := FormatCustomDateTime(newDate, newTime);
      editedRecord := editedRecord[field := formatted];
    }
  }
}

/**
 * The per-user symptom history: how a prompt becomes a symptom key
 * (`prompt.trim().toLowerCase()`), how a report is recorded under that key
 * (`get(key) || []`, push the date, `set`), and the read-side window that keeps
 * only the dates after a cutoff and only the symptoms with such a date.
 */
module SymptomHistory {
  import opened Wrappers
  import opened Text
  import opened ChatModel
  import opened UserModel

  // ---------------------------------------------------------------------------
  // the symptom key

  /** The characters `String.prototype.trim` removes: white space and line terminators. */
  predicate IsWhitespace(c: char)
  {
    || c == '\t' || c == '\n' || c == '\U{000B}' || c == '\U{000C}' || c == '\r' || c == ' '
    || c == '\U{00A0}' || c == '\U{1680}' || ('\U{2000}' <= c <= '\U{200A}')
    || c == '\U{2028}' || c == '\U{2029}' || c == '\U{202F}' || c == '\U{205F}'
    || c == '\U{3000}' || c == '\U{FEFF}'
  }

  /** Leading white space removed: a suffix of `s` that starts with a non-space, or is empty. */
  function TrimStart(s: string): (r: string)
    ensures |r| <= |s| && r == s[|s| - |r|..]
    ensures forall i :: 0 <= i < |s| - |r| ==> IsWhitespace(s[i])
    ensures r == [] || !IsWhitespace(r[0])
  {
    if |s| > 0 && IsWhitespace(s[0]) then TrimStart(s[1..]) else s
  }

  /** Trailing white space removed: a prefix of `s` that ends with a non-space, or is empty. */
  function TrimEnd(s: string): (r: string)
    ensures |r| <= |s| && r == s[..|r|]
    ensures forall i :: |r| <= i < |s| ==> IsWhitespace(s[i])
    ensures r == [] || !IsWhitespace(r[|r| - 1])
  {
    if |s| > 0 && IsWhitespace(s[|s| - 1]) then TrimEnd(s[..|s| - 1]) else s
  }

  /** `s.trim()`. */
  function Trim(s: string): (r: string)
    ensures r == [] || (!IsWhitespace(r[0]) && !IsWhitespace(r[|r| - 1]))
  {
    TrimStart(TrimEnd(s))
  }

  /** A string with no white space at either end. */
  predicate Trimmed(s: string)
  {
    s == [] || (!IsWhitespace(s[0]) && !IsWhitespace(s[|s| - 1]))
  }

  predicate AllWhitespace(s: string)
  {
    forall i :: 0 <= i < |s| ==> IsWhitespace(s[i])
  }

  lemma {:induction false} TrimEndPadded(x: string, after: string)
    requires AllWhitespace(after) && (x == [] || !IsWhitespace(x[|x| - 1]))
    ensures TrimEnd(x + after) == x
    decreases |after|
  {
    var s := x + after;
    if after == [] {
      assert s == x;
    } else {
      var shorter := after[..|after| - 1];
      assert s[|s| - 1] == after[|after| - 1];
      assert s[..|s| - 1] == x + shorter;
      TrimEndPadded(x, shorter);
    }
  }

  lemma TrimStartPadded(before: string, y: string)
    requires AllWhitespace(before) && (y == [] || !IsWhitespace(y[0]))
    ensures TrimStart(before + y) == y
  {
    var s := before + y;
    var r := TrimStart(s);
    assert forall i :: 0 <= i < |before| ==> s[i] == before[i];
    assert y == [] || s[|before|] == y[0];
    assert |r| == 0 || r[0] == s[|s| - |r|];
    assert |r| <= |y|;
    assert |y| <= |r|;
    assert r == s[|before|..] == y;
  }

  /**
   * `trim` is characterised by what it removes: padding a trimmed string with
   * white space on either side and trimming gives the string back.
   */
  lemma TrimOfPadded(before: string, core: string, after: string)
    requires AllWhitespace(before) && AllWhitespace(after) && Trimmed(core)
    ensures Trim(before + core + after) == core
  {
    if core == [] {
      assert AllWhitespace(before + after);
      TrimEndPadded([], before + after);
      assert before + core + after == [] + (before + after);
    } else {
      TrimEndPadded(before + core, after);
      TrimStartPadded(before, core);
    }
  }

  /** Trimming twice is trimming once. */
  lemma TrimIdempotent(s: string)
    ensures Trim(Trim(s)) == Trim(s)
  {
    assert "" + Trim(s) + "" == Trim(s);
    TrimOfPadded("", Trim(s), "");
  }

  /** `toLowerCase` on one character; only the ASCII capitals are mapped. */
  function LowerChar(c: char): (l: char)
    ensures 'A' <= c <= 'Z' ==> 'a' <= l <= 'z'
    ensures !('A' <= c <= 'Z') ==> l == c
    ensures !('A' <= l <= 'Z')
  {
    if 'A' <= c <= 'Z' then (c as int + 32) as char else c
  }

  /** Lowering a character never makes or unmakes white space. */
  lemma LowerKeepsWhitespace(c: char)
    ensures IsWhitespace(LowerChar(c)) == IsWhitespace(c)
  {
  }

  /** `s.toLowerCase()`, ASCII only. */
  function Lower(s: string): (r: string)
    ensures |r| == |s|
    ensures forall i :: 0 <= i < |s| ==> r[i] == LowerChar(s[i])
  {
    Map(LowerChar, s)
  }

  /** The symptom key a prompt is recorded under: `prompt.trim().toLowerCase()`. */
  function SymptomKey(prompt: string): string
  {
    Lower(Trim(prompt))
  }

  /**
   * A key is its own key: normalising a normalised prompt changes nothing, so
   * prompts that differ only in padding and case land on one key.
   */
  lemma SymptomKeyIdempotent(prompt: string)
    ensures SymptomKey(SymptomKey(prompt)) == SymptomKey(prompt)
    ensures Trimmed(SymptomKey(prompt))
  {
    var t := Trim(prompt);
    var k := Lower(t);
    LowerKeepsTrimmed(t);
    TrimOfTrimmed(k);
    LowerIdempotent(t);
  }

  lemma TrimOfTrimmed(k: string)
    requires Trimmed(k)
    ensures Trim(k) == k
  {
    assert "" + k + "" == k;
    TrimOfPadded("", k, "");
  }

  lemma LowerKeepsTrimmed(t: string)
    requires Trimmed(t)
    ensures Trimmed(Lower(t))
  {
    if t != [] {
      LowerKeepsWhitespace(t[0]);
      LowerKeepsWhitespace(t[|t| - 1]);
    }
  }

  lemma LowerIdempotent(t: string)
    ensures Lower(Lower(t)) == Lower(t)
  {
    var l := Lower(t);
    assert forall i :: 0 <= i < |l| ==> LowerChar(l[i]) == l[i];
  }

  /**
   * Keys the document map accepts: none contains "." or starts with "$", and none
   * is one of the names that would reach the object's prototype.
   */
  predicate MapKeyAllowed(key: string)
  {
    && '.' !in key
    && !(|key| > 0 && key[0] == '$')
    && key != "__proto__" && key != "constructor" && key != "prototype"
  }

  // ---------------------------------------------------------------------------
  // the map operations

  /** `symptoms.get(key)`: the dates of the first entry with that key. */
  function Get(s: Symptoms, key: string): (r: Option<seq<Date>>)
    ensures r.Some? <==> key in Keys(s)
  {
    if |s| == 0 then None
    else if s[0].symptom == key then Some(s[0].dates)
    else Get(s[1..], key)
  }

  /**
   * `symptoms.set(key, dates)`: an existing key keeps its position and gets the new
   * dates, a new key goes to the end.
   */
  function Set(s: Symptoms, key: string, dates: seq<Date>): (r: Symptoms)
    ensures key in Keys(s) ==> Keys(r) == Keys(s)
    ensures key !in Keys(s) ==> r == s + [SymptomEntry(key, dates)]
  {
    if |s| == 0 then [SymptomEntry(key, dates)]
    else if s[0].symptom == key then [SymptomEntry(key, dates)] + s[1..]
    else [s[0]] + Set(s[1..], key, dates)
  }

  /** After `set`, `get` answers the new dates for that key and the old ones for every other. */
  lemma {:induction false} SetThenGet(s: Symptoms, key: string, dates: seq<Date>, k: string)
    ensures Get(Set(s, key, dates), k) == if k == key then Some(dates) else Get(s, k)
  {
    if |s| > 0 && s[0].symptom != key {
      SetThenGet(s[1..], key, dates, k);
      assert Set(s, key, dates)[1..] == Set(s[1..], key, dates);
    }
  }

  /** The dates recorded under `key`, or none: `symptoms.get(key) || []`. */
  function DatesOf(s: Symptoms, key: string): seq<Date>
  {
    match Get(s, key)
    case None => []
    case Some(dates) => dates
  }

  /**
   * Recording a report of `key` on `date`: the key's dates gain `date` at the
   * end, every other key is untouched, keys stay unique and in first-report order.
   */
  function Record(s: Symptoms, key: string, date: Date): (r: Symptoms)
    ensures key in Keys(s) ==> Keys(r) == Keys(s)
    ensures key !in Keys(s) ==> r == s + [SymptomEntry(key, [date])]
  {
    assert key !in Keys(s) ==> DatesOf(s, key) + [date] == [date];
    Set(s, key, DatesOf(s, key) + [date])
  }

  /**
   * What recording does to the map: the key's dates gain `date` at the end, every
   * other key keeps its dates, and keys stay unique.
   */
  lemma RecordAppendsDate(s: Symptoms, key: string, date: Date, k: string)
    ensures Get(Record(s, key, date), key) == Some(DatesOf(s, key) + [date])
    ensures k != key ==> Get(Record(s, key, date), k) == Get(s, k)
    ensures UniqueKeys(s) ==> UniqueKeys(Record(s, key, date))
  {
    SetThenGet(s, key, DatesOf(s, key) + [date], key);
    SetThenGet(s, key, DatesOf(s, key) + [date], k);
    if UniqueKeys(s) {
      RecordKeepsUnique(s, key, date);
    }
  }

  lemma RecordKeepsUnique(s: Symptoms, key: string, date: Date)
    requires UniqueKeys(s)
    ensures UniqueKeys(Record(s, key, date))
  {
    if key !in Keys(s) {
      assert forall i :: 0 <= i < |s| ==> s[i].symptom == Keys(s)[i];
    }
  }

  // ---------------------------------------------------------------------------
  // the window

  /** One row of the symptoms report. */
  datatype SymptomCount = SymptomCount(symptom: string, count: nat, dates: seq<Date>)

  /** The `filter` query parameter: "month" selects a month back, anything else a week back. */
  function Cutoff(filter: string, monthAgo: Date, weekAgo: Date): (c: Date)
    ensures filter == "month" ==> c == monthAgo
    ensures filter != "month" ==> c == weekAgo
  {
    if filter == "month" then monthAgo else weekAgo
  }

  function After(cutoff: Date): Date -> bool
  {
    (d: Date) => d > cutoff
  }

  /** The dates strictly after the cutoff, in stored order. */
  function Recent(dates: seq<Date>, cutoff: Date): seq<Date>
  {
    Filter(After(cutoff), dates)
  }

  function Windowed(cutoff: Date): SymptomEntry -> SymptomCount
  {
    (e: SymptomEntry) => var recent := Recent(e.dates, cutoff); SymptomCount(e.symptom, |recent|, recent)
  }

  function HasCount(c: SymptomCount): bool
  {
    c.count > 0
  }

  /** The symptoms report: every symptom with a date after the cutoff, with those dates. */
  function SymptomsInWindow(s: Symptoms, cutoff: Date): (rows: seq<SymptomCount>)
  {
    Filter(HasCount, Map(Windowed(cutoff), s))
  }

  /**
   * The rows of the report, in stored order: row `j` comes from entry `picked[j]`,
   * keeps its key, counts and lists exactly its dates after the cutoff, and an
   * entry has a row exactly when one of its dates is after the cutoff.
   */
  lemma {:induction false} WindowRows(s: Symptoms, cutoff: Date) returns (picked: seq<nat>)
    ensures |picked| == |SymptomsInWindow(s, cutoff)|
    ensures forall j, k :: 0 <= j < k < |picked| ==> picked[j] < picked[k]
    ensures forall j :: 0 <= j < |picked| ==>
              && picked[j] < |s|
              && var row := SymptomsInWindow(s, cutoff)[j];
              && row.symptom == s[picked[j]].symptom
              && row.dates == Recent(s[picked[j]].dates, cutoff)
              && row.count == |row.dates| > 0
              && forall d :: d in row.dates ==> d in s[picked[j]].dates && d > cutoff
    ensures forall i :: 0 <= i < |s| ==>
              (i in picked <==> exists d :: d in s[i].dates && d > cutoff)
  {
    var mapped := Map(Windowed(cutoff), s);
    picked := FilterSelects(HasCount, mapped);
    forall i | 0 <= i < |s|
      ensures |Recent(s[i].dates, cutoff)| > 0 <==> exists d :: d in s[i].dates && d > cutoff
    {
      FilterMembers(After(cutoff), s[i].dates);
      var recent := Recent(s[i].dates, cutoff);
      if |recent| > 0 {
        assert recent[0] in s[i].dates && recent[0] > cutoff;
      }
      if d :| d in s[i].dates && d > cutoff {
        var n :| 0 <= n < |s[i].dates| && s[i].dates[n] == d;
        assert s[i].dates[n] in recent;
      }
    }
    forall j | 0 <= j < |picked|
      ensures forall d :: d in SymptomsInWindow(s, cutoff)[j].dates ==> d in s[picked[j]].dates && d > cutoff
    {
      FilterMembers(After(cutoff), s[picked[j]].dates);
    }
  }

  /** Some row of the report has the symptom with at least `count` dates. */
  predicate ReportsAtLeast(rows: seq<SymptomCount>, symptom: string, count: nat)
  {
    exists k :: 0 <= k < |rows| && rows[k].symptom == symptom && rows[k].count >= count
  }

  /**
   * A wider window reports more: with an earlier cutoff every reported symptom is
   * still reported, with at least as many dates.
   */
  lemma WiderWindowReportsMore(s: Symptoms, early: Date, late: Date)
    requires early <= late
    ensures forall row :: row in SymptomsInWindow(s, late) ==>
              ReportsAtLeast(SymptomsInWindow(s, early), row.symptom, row.count)
  {
    var lateRows := SymptomsInWindow(s, late);
    var earlyRows := SymptomsInWindow(s, early);
    var pl := WindowRows(s, late);
    var pe := WindowRows(s, early);
    forall row | row in lateRows
      ensures ReportsAtLeast(earlyRows, row.symptom, row.count)
    {
      var j :| 0 <= j < |lateRows| && lateRows[j] == row;
      var i := pl[j];
      var d :| d in s[i].dates && d > late;
      assert i in pe;
      var k :| 0 <= k < |pe| && pe[k] == i;
      FilterMonotone(After(late), After(early), s[i].dates);
      assert earlyRows[k].symptom == row.symptom && earlyRows[k].count >= row.count;
    }
  }
}

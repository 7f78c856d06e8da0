/** The sheet editor page: the rate field's input filter, the list of
    minute entries with its add and update handlers, and the running total. */
module SheetEditor {

  /** A row of the editor; `date` is a clock reading. */
  datatype Entry = Entry(date: nat, minutes: int)

  /** The `[key]: value` of `handleUpdateEntry`: which field, and its new value. */
  datatype EntryUpdate = SetDate(date: nat) | SetMinutes(minutes: int)

  /** What `parseInt` gives for the text typed into a minutes field. */
  datatype ParsedInt = NaN | Int(n: int)

  predicate IsDigit(c: char)
  {
    '0' <= c <= '9'
  }

  predicate AllDigits(s: string)
  {
    forall i :: 0 <= i < |s| ==> IsDigit(s[i])
  }

  /** The strings the pattern `^\d*\.?\d{0,2}$` accepts: digits, then at most
      one '.', then at most two digits, and nothing else. `s[..i]` is the
      `\d*` part and `s[j..]` the `\d{0,2}` part. */
  ghost predicate InRateLanguage(s: string)
  {
    exists i, j :: 0 <= i <= j <= |s| && j <= i + 1
      && AllDigits(s[..i]) && (j == i + 1 ==> s[i] == '.')
      && AllDigits(s[j..]) && |s| - j <= 2
  }

  /** How many digits `s` starts with. */
  function LeadingDigits(s: string): (n: nat)
    ensures n <= |s| && AllDigits(s[..n])
    ensures n < |s| ==> !IsDigit(s[n])
  {
    if s == [] || !IsDigit(s[0]) then 0
    else
      var n := 1 + LeadingDigits(s[1..]);
      assert s[..n] == [s[0]] + s[1..][..n - 1];
      n
  }

  /** The rate filter as a scan: skip the leading digits; what is left must
      be empty or a '.' followed by at most two digits. */
  function MatchesRate(s: string): (r: bool)
    ensures AllDigits(s) ==> r
    ensures r ==> forall i :: 0 <= i < |s| ==> IsDigit(s[i]) || s[i] == '.'
    ensures r ==> forall i :: 0 <= i < |s| && s[i] == '.' ==> |s| - i <= 3
  {
    var n := LeadingDigits(s);
    assert forall i :: 0 <= i < n ==> s[..n][i] == s[i];
    assert n < |s| ==> forall i :: n < i < |s| ==> s[n + 1..][i - n - 1] == s[i];
    n == |s| || (s[n] == '.' && AllDigits(s[n + 1..]) && |s| - (n + 1) <= 2)
  }

  /** A prefix of `i` digits is inside the leading digits. */
  lemma {:induction false} LeadingDigitsCover(s: string, i: nat)
    requires i <= |s| && AllDigits(s[..i])
    ensures i <= LeadingDigits(s)
  {
    if i > 0 {
      assert IsDigit(s[..i][0]);
      assert s[1..][..i - 1] == s[..i][1..];
      LeadingDigitsCover(s[1..], i - 1);
    }
  }

  /** The scan accepts exactly the strings the pattern describes. */
  lemma MatchesRateIsPattern(s: string)
    ensures MatchesRate(s) <==> InRateLanguage(s)
  {
    if MatchesRate(s) {
      ScanInPattern(s);
    }
    if InRateLanguage(s) {
      var i, j :| 0 <= i <= j <= |s| && j <= i + 1
        && AllDigits(s[..i]) && (j == i + 1 ==> s[i] == '.')
        && AllDigits(s[j..]) && |s| - j <= 2;
      PatternScans(s, i, j);
    }
  }

  lemma ScanInPattern(s: string)
    requires MatchesRate(s)
    ensures InRateLanguage(s)
  {
    var n := LeadingDigits(s);
    if n == |s| {
      assert s[n..] == [];
      assert AllDigits(s[..n]) && AllDigits(s[n..]) && |s| - n <= 2;
    } else {
      assert AllDigits(s[..n]) && s[n] == '.' && AllDigits(s[n + 1..]);
    }
  }

  lemma PatternScans(s: string, i: nat, j: nat)
    requires i <= j <= |s| && j <= i + 1
    requires AllDigits(s[..i]) && (j == i + 1 ==> s[i] == '.')
    requires AllDigits(s[j..]) && |s| - j <= 2
    ensures MatchesRate(s)
  {
    LeadingDigitsCover(s, i);
    var n := LeadingDigits(s);
    if j == i + 1 {
      assert n == i;
      assert s[n + 1..] == s[j..];
    }
  }

  /** What the pattern lets into the rate field, and what it keeps out. */
  lemma RateExamples()
    ensures InRateLanguage("") && InRateLanguage("12") && InRateLanguage("12.")
    ensures InRateLanguage(".5") && InRateLanguage("12.34")
    ensures !InRateLanguage("1.234") && !InRateLanguage("1.2.3") && !InRateLanguage("1e5")
  {
    MatchesRateIsPattern("");
    MatchesRateIsPattern("12");
    MatchesRateIsPattern("12.");
    MatchesRateIsPattern(".5");
    MatchesRateIsPattern("12.34");
    MatchesRateIsPattern("1.234");
    MatchesRateIsPattern("1.2.3");
    MatchesRateIsPattern("1e5");
    assert LeadingDigits("12") == 2;
    assert LeadingDigits("12.") == 2;
    assert LeadingDigits(".5") == 0;
    assert LeadingDigits("12.34") == 2;
    assert LeadingDigits("1.234") == 1;
    assert LeadingDigits("1.2.3") == 1;
    assert LeadingDigits("1e5") == 1;
  }

  /** `{ ...entry, [key]: value }`. */
  function ApplyUpdate(e: Entry, u: EntryUpdate): (r: Entry)
    ensures u.SetDate? ==> r.date == u.date && r.minutes == e.minutes
    ensures u.SetMinutes? ==> r.minutes == u.minutes && r.date == e.date
  {
    match u
    case SetDate(d) => e.(date := d)
    case SetMinutes(m) => e.(minutes := m)
  }

  /** `entries.map((entry, i) => i === index ? { ...entry, [key]: value } : entry)`:
      an index that names no entry (negative, or past the end) matches none. */
  function UpdateAt(entries: seq<Entry>, index: int, u: EntryUpdate): (r: seq<Entry>)
    ensures |r| == |entries|
    ensures forall i :: 0 <= i < |r| && i != index ==> r[i] == entries[i]
    ensures 0 <= index < |r| ==> r[index] == ApplyUpdate(entries[index], u)
  {
    seq(|entries|, i requires 0 <= i < |entries| => if i == index then ApplyUpdate(entries[i], u) else entries[i])
  }

  /** The map-based update is the splice that replaces entry `index` alone,
      and an index outside the list changes nothing. */
  lemma UpdateAtIsSplice(entries: seq<Entry>, index: int, u: EntryUpdate)
    ensures 0 <= index < |entries| ==>
      UpdateAt(entries, index, u) == entries[..index] + [ApplyUpdate(entries[index], u)] + entries[index + 1..]
    ensures !(0 <= index < |entries|) ==> UpdateAt(entries, index, u) == entries
  {
    var r := UpdateAt(entries, index, u);
    if 0 <= index < |entries| {
      var s := entries[..index] + [ApplyUpdate(entries[index], u)] + entries[index + 1..];
      assert |s| == |r|;
      forall i | 0 <= i < |r| ensures r[i] == s[i] {
        if i < index {
          assert s[i] == entries[i];
        } else if i > index {
          assert s[i] == entries[i];
        }
      }
    } else {
      assert forall i :: 0 <= i < |r| ==> r[i] == entries[i];
    }
  }

  /** `entries.reduce((sum, entry) => sum + entry.minutes, 0)`: a left fold. */
  function TotalMinutes(entries: seq<Entry>): (t: int)
    ensures NonNegative(entries) ==> t >= 0
  {
    if entries == [] then 0
    else
      var last := |entries| - 1;
      assert forall i :: 0 <= i < last ==> entries[..last][i] == entries[i];
      TotalMinutes(entries[..last]) + entries[last].minutes
  }

  /** The same sum taken from the front: the total does not depend on the
      direction of the fold. */
  function SumFromFront(entries: seq<Entry>): int
  {
    if entries == [] then 0 else entries[0].minutes + SumFromFront(entries[1..])
  }

  lemma {:induction false} TotalIsSum(entries: seq<Entry>)
    ensures TotalMinutes(entries) == SumFromFront(entries)
  {
    if entries != [] {
      var last := |entries| - 1;
      TotalIsSum(entries[..last]);
      if last > 0 {
        assert entries[..last][1..] == entries[1..][..last - 1];
        SumFrontSplitLast(entries[1..]);
      }
    }
  }

  /** Taking the last entry off the front-first sum. */
  lemma {:induction false} SumFrontSplitLast(entries: seq<Entry>)
    requires entries != []
    ensures SumFromFront(entries) == SumFromFront(entries[..|entries| - 1]) + entries[|entries| - 1].minutes
  {
    if |entries| > 1 {
      SumFrontSplitLast(entries[1..]);
      assert entries[1..][..|entries| - 2] == entries[..|entries| - 1][1..];
    }
  }

  /** Appending an entry adds its minutes to the total. */
  lemma TotalAppend(entries: seq<Entry>, e: Entry)
    ensures TotalMinutes(entries + [e]) == TotalMinutes(entries) + e.minutes
  {
    assert (entries + [e])[..|entries|] == entries;
  }

  /** The entry `handleAddEntry` appends has 0 minutes: the total is unchanged. */
  lemma AddEntryKeepsTotal(entries: seq<Entry>, today: nat)
    ensures TotalMinutes(entries + [Entry(today, 0)]) == TotalMinutes(entries)
  {
    TotalAppend(entries, Entry(today, 0));
  }

  ghost predicate NonNegative(entries: seq<Entry>)
  {
    forall i :: 0 <= i < |entries| ==> entries[i].minutes >= 0
  }

  /** With no negative entry the total is not negative, and it is 0 exactly
      when every entry is 0. */
  lemma {:induction false} TotalNonNegative(entries: seq<Entry>)
    requires NonNegative(entries)
    ensures TotalMinutes(entries) >= 0
    ensures TotalMinutes(entries) == 0 <==> forall i :: 0 <= i < |entries| ==> entries[i].minutes == 0
  {
    if entries != [] {
      var last := |entries| - 1;
      TotalNonNegative(entries[..last]);
      assert forall i :: 0 <= i < last ==> entries[..last][i] == entries[i];
    }
  }

  /** Changing entry `index`'s minutes changes the total by the difference;
      changing its date leaves the total alone. */
  lemma {:induction false} TotalAfterUpdate(entries: seq<Entry>, index: int, u: EntryUpdate)
    requires 0 <= index < |entries|
    ensures TotalMinutes(UpdateAt(entries, index, u))
      == TotalMinutes(entries) - entries[index].minutes + ApplyUpdate(entries[index], u).minutes
  {
    var last := |entries| - 1;
    var r := UpdateAt(entries, index, u);
    assert r != [];
    if index == last {
      assert r[..last] == entries[..last];
    } else {
      TotalAfterUpdate(entries[..last], index, u);
      assert r[..last] == UpdateAt(entries[..last], index, u);
    }
  }

  /** `Math.max(0, parseInt(value) || 0)`: NaN and every negative number
      become 0, a non-negative number is kept. */
  function ClampMinutes(p: ParsedInt): (m: int)
    ensures m >= 0
    ensures p.Int? && p.n >= 0 ==> m == p.n
    ensures p.NaN? || (p.Int? && p.n < 0) ==> m == 0
  {
    match p
    case NaN => 0
    case Int(n) => if n > 0 then n else 0
  }

  /** The component state of the editor page. */
  class Editor {
    var rate: string
    var description: string
    var entries: seq<Entry>

    /** No entry holds negative minutes. */
    ghost predicate Valid()
      reads this
    {
      NonNegative(entries)
    }

    /** The initial state: an empty rate and description, one 0-minute entry. */
    constructor (today: nat)
      ensures Valid()
      ensures rate == "" && description == "" && entries == [Entry(today, 0)]
      ensures TotalMinutes(entries) == 0
    {
      rate := "";
      description := "";
      entries := [Entry(today, 0)];
    }

    /** The total shown on the page. */
    function Total(): (t: int)
      reads this
      requires Valid()
      ensures t >= 0
    {
      TotalNonNegative(entries);
      TotalMinutes(entries)
    }

    /** `handleChange` of the rate field: the typed value is taken only when
        it matches the pattern, otherwise the rate stays as it was. */
    method HandleChange(value: string)
      requires Valid()
      modifies this
      ensures Valid()
      ensures rate == (if InRateLanguage(value) then value else old(rate))
      ensures description == old(description) && entries == old(entries)
    {
      MatchesRateIsPattern(value);
      if MatchesRate(value) {
        rate := value;
      }
    }

    /** The description box's `onChange`. */
    method SetDescription(value: string)
      requires Valid()
      modifies this
      ensures Valid()
      ensures description == value && rate == old(rate) && entries == old(entries)
    {
      description := value;
    }

    /** `handleAddEntry`: one more entry, dated now, with 0 minutes. */
    method AddEntry(today: nat)
      requires Valid()
      modifies this
      ensures Valid()
      ensures entries == old(entries) + [Entry(today, 0)]
      ensures Total() == old(Total())
      ensures rate == old(rate) && description == old(description)
    {
      AddEntryKeepsTotal(entries, today);
      entries := entries + [Entry(today, 0)];
    }

    /** `handleUpdateEntry(index, key, value)`; a negative minutes value is
        the only update that can break `Valid()`. */
    method UpdateEntry(index: int, u: EntryUpdate)
      requires Valid()
      modifies this
      ensures entries == UpdateAt(old(entries), index, u)
      ensures !(u.SetMinutes? && u.minutes < 0) ==> Valid()
      ensures 0 <= index < |entries| ==>
        TotalMinutes(entries) == old(TotalMinutes(entries)) - old(entries[index].minutes) + ApplyUpdate(old(entries[index]), u).minutes
      ensures !(0 <= index < |entries|) ==> entries == old(entries)
      ensures rate == old(rate) && description == old(description)
    {
      if 0 <= index < |entries| {
        TotalAfterUpdate(entries, index, u);
      }
      UpdateAtIsSplice(entries, index, u);
      entries := UpdateAt(entries, index, u);
    }

    /** The minutes field's `onChange`: the parsed number, clamped, goes into
        entry `index`, so the entries and the total stay non-negative. */
    method TypeMinutes(index: int, parsed: ParsedInt)
      requires Valid()
      modifies this
      ensures Valid()
      ensures entries == UpdateAt(old(entries), index, SetMinutes(ClampMinutes(parsed)))
      ensures Total() >= 0
      ensures rate == old(rate) && description == old(description)
    {
      UpdateEntry(index, SetMinutes(ClampMinutes(parsed)));
    }
  }
}

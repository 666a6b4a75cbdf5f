/**
  planner.py: the subjects a student studies, the study plan that holds them
  in the order they were added, the listing and the suggested daily schedule
  computed from that list, and the parser for "add ..." chat messages.
 */
module Planner {
  import opened Wrappers
  import opened Text
  import opened Numbers

  // ---------------------------------------------------------------------
  // Entities and the plan
  // ---------------------------------------------------------------------

  /** One subject: its weekly target, a priority (1 high, 2 medium, 3 low) and an optional deadline. */
  datatype Subject = Subject(name: string, hoursPerWeek: real, priority: int, deadline: Option<string>)

  /** What `add_subject` and `clear` confirm to the user. */
  datatype Confirmation =
    | SubjectAdded(name: string, hours: real, priority: int)
    | AllCleared

  /** The study plan: the one list of subjects a session keeps and changes in place. */
  class StudyPlan {
    var subjects: seq<Subject>

    /** A new plan holds no subject. */
    constructor ()
      ensures subjects == []
    {
      subjects := [];
    }

    /** Appends one subject at the end; the subjects before it are unchanged. */
    method AddSubject(name: string, hours: real, priority: int, deadline: Option<string>) returns (c: Confirmation)
      modifies this
      ensures subjects == old(subjects) + [Subject(name, hours, priority, deadline)]
      ensures c == SubjectAdded(name, hours, priority)
    {
      subjects := subjects + [Subject(name, hours, priority, deadline)];
      c := SubjectAdded(name, hours, priority);
    }

    /** Forgets every subject. */
    method Clear() returns (c: Confirmation)
      modifies this
      ensures subjects == []
      ensures c == AllCleared
    {
      subjects := [];
      c := AllCleared;
    }
  }

  // ---------------------------------------------------------------------
  // Listing the subjects
  // ---------------------------------------------------------------------

  /** One numbered line of the listing. */
  datatype ListedSubject = ListedSubject(number: nat, name: string, hoursPerWeek: real, priority: int, deadline: Option<string>)

  /** `list_subjects`: a prompt when there is nothing to list, else one line per subject. */
  datatype SubjectListing = NoSubjectsYet | Listing(lines: seq<ListedSubject>)

  /** A deadline is shown only when it is present and not the empty string. */
  function ShownDeadline(deadline: Option<string>): (r: Option<string>)
    ensures r.Some? <==> deadline.Some? && deadline.value != ""
    ensures r.Some? ==> r == deadline
  {
    if deadline.Some? && deadline.value != "" then deadline else None
  }

  function ListLine(number: nat, s: Subject): ListedSubject {
    ListedSubject(number, s.name, s.hoursPerWeek, s.priority, ShownDeadline(s.deadline))
  }

  /** The lines for `subjects`, numbered from `first` on. */
  function ListLines(subjects: seq<Subject>, first: nat): (lines: seq<ListedSubject>)
    ensures |lines| == |subjects|
    ensures forall i :: 0 <= i < |subjects| ==> lines[i] == ListLine(first + i, subjects[i])
  {
    if subjects == [] then [] else [ListLine(first, subjects[0])] + ListLines(subjects[1..], first + 1)
  }

  function ListSubjects(subjects: seq<Subject>): (r: SubjectListing)
    ensures r.NoSubjectsYet? <==> subjects == []
    ensures r.Listing? ==> |r.lines| == |subjects|
    ensures r.Listing? ==> forall i :: 0 <= i < |subjects| ==>
      r.lines[i].number == i + 1 && r.lines[i].name == subjects[i].name &&
      r.lines[i].hoursPerWeek == subjects[i].hoursPerWeek && r.lines[i].priority == subjects[i].priority &&
      r.lines[i].deadline == ShownDeadline(subjects[i].deadline)
  {
    if subjects == [] then NoSubjectsYet else Listing(ListLines(subjects, 1))
  }

  /** After an add, the listing is the old one with the new subject as the last, numbered line. */
  lemma ListingAfterAdd(subjects: seq<Subject>, s: Subject)
    ensures ListSubjects(subjects + [s]).Listing?
    ensures ListSubjects(subjects + [s]).lines ==
      (if subjects == [] then [] else ListSubjects(subjects).lines) + [ListLine(|subjects| + 1, s)]
  {
    var after := ListSubjects(subjects + [s]).lines;
    var before := if subjects == [] then [] else ListSubjects(subjects).lines;
    assert |after| == |before| + 1;
    forall i | 0 <= i < |after| ensures after[i] == (before + [ListLine(|subjects| + 1, s)])[i] {
      if i < |subjects| {
        assert (subjects + [s])[i] == subjects[i];
      }
    }
  }

  // ---------------------------------------------------------------------
  // The daily schedule
  // ---------------------------------------------------------------------

  /** The schedule's sort key `(priority, -hours_per_week)`: `a` may come before `b`. */
  predicate ComesBefore(a: Subject, b: Subject) {
    a.priority < b.priority || (a.priority == b.priority && a.hoursPerWeek >= b.hoursPerWeek)
  }

  /** `a` and `b` have equal sort keys. */
  predicate SameKey(a: Subject, b: Subject) {
    a.priority == b.priority && a.hoursPerWeek == b.hoursPerWeek
  }

  predicate SortedForSchedule(s: seq<Subject>) {
    forall i, j :: 0 <= i < j < |s| ==> ComesBefore(s[i], s[j])
  }

  /** The subjects of `s` whose key equals that of `k`, in the order of `s`. */
  function WithKeyOf(s: seq<Subject>, k: Subject): seq<Subject> {
    if s == [] then []
    else if SameKey(s[0], k) then [s[0]] + WithKeyOf(s[1..], k)
    else WithKeyOf(s[1..], k)
  }

  /** Puts `x` before the first subject that does not sort strictly before it. */
  function Insert(x: Subject, t: seq<Subject>): (r: seq<Subject>)
    ensures |r| == |t| + 1
    ensures multiset(r) == multiset(t) + multiset{x}
  {
    if t == [] || ComesBefore(x, t[0]) then [x] + t
    else
      assert t == [t[0]] + t[1..];
      [t[0]] + Insert(x, t[1..])
  }

  lemma {:induction false} InsertSorted(x: Subject, t: seq<Subject>)
    requires SortedForSchedule(t)
    ensures SortedForSchedule(Insert(x, t))
  {
    if t == [] || ComesBefore(x, t[0]) {
      assert forall j :: 0 <= j < |t| ==> ComesBefore(x, t[j]);
    } else {
      var rest := Insert(x, t[1..]);
      InsertSorted(x, t[1..]);
      forall e | e in rest ensures ComesBefore(t[0], e) {
        assert e in multiset(rest);
        if e != x {
          assert e in multiset(t[1..]);
        }
      }
    }
  }

  /**
    Python's stable `sorted` on the key `(priority, -hours_per_week)`: an
    insertion sort that keeps subjects with equal keys in insertion order.
   */
  function ScheduleOrder(s: seq<Subject>): (r: seq<Subject>)
    ensures |r| == |s|
    ensures multiset(r) == multiset(s)
    ensures SortedForSchedule(r)
  {
    if s == [] then []
    else
      assert s == [s[0]] + s[1..];
      InsertSorted(s[0], ScheduleOrder(s[1..]));
      Insert(s[0], ScheduleOrder(s[1..]))
  }

  lemma {:induction false} InsertWithKey(x: Subject, t: seq<Subject>, k: Subject)
    ensures WithKeyOf(Insert(x, t), k) == if SameKey(x, k) then [x] + WithKeyOf(t, k) else WithKeyOf(t, k)
  {
    if t == [] || ComesBefore(x, t[0]) {
      assert ([x] + t)[1..] == t;
    } else {
      InsertWithKey(x, t[1..], k);
      assert ([t[0]] + Insert(x, t[1..]))[1..] == Insert(x, t[1..]);
    }
  }

  /** The sort is stable: subjects with equal keys keep the order in which they were added. */
  lemma {:induction false} ScheduleOrderStable(s: seq<Subject>, k: Subject)
    ensures WithKeyOf(ScheduleOrder(s), k) == WithKeyOf(s, k)
  {
    if s != [] {
      ScheduleOrderStable(s[1..], k);
      InsertWithKey(s[0], ScheduleOrder(s[1..]), k);
    }
  }

  function SumHours(s: seq<Subject>): real {
    if s == [] then 0.0 else s[0].hoursPerWeek + SumHours(s[1..])
  }

  /** The hours the day is shared by: their sum, or two hours a subject when that sum is not positive. */
  function TotalWeight(s: seq<Subject>): (total: real)
    ensures s != [] ==> total > 0.0
    ensures SumHours(s) > 0.0 ==> total == SumHours(s)
    ensures SumHours(s) <= 0.0 ==> total == 2.0 * |s| as real
  {
    var sum := SumHours(s);
    if sum <= 0.0 then 2.0 * |s| as real else sum
  }

  /** Python's `int()` on a float: truncation toward zero. */
  function Trunc(x: real): (n: int)
    ensures 0.0 <= x ==> n as real <= x < n as real + 1.0
    ensures x < 0.0 ==> n as real - 1.0 < x <= n as real
  {
    if x >= 0.0 then x.Floor else -((-x).Floor)
  }

  /** Every subject gets at least this many minutes a day. */
  const MinimumMinutes: int := 15

  /** A subject's share of the day: its hours (1 when it has none) over the total, the total taken as at least 1. */
  function Share(s: Subject, total: real): (r: real)
    ensures r * (if total >= 1.0 then total else 1.0) == (if s.hoursPerWeek == 0.0 then 1.0 else s.hoursPerWeek)
    ensures s.hoursPerWeek >= 0.0 ==> r > 0.0
    ensures 0.0 <= s.hoursPerWeek <= total ==> r <= 1.0
  {
    (if s.hoursPerWeek == 0.0 then 1.0 else s.hoursPerWeek) / (if total >= 1.0 then total else 1.0)
  }

  /** The minutes a subject gets: its share of the day, truncated, and raised to the minimum. */
  function Minutes(s: Subject, total: real, hoursPerDay: real): (m: int)
    ensures m >= MinimumMinutes
    ensures var floored := (hoursPerDay * 60.0 * Share(s, total)).Floor;
      m == if floored < MinimumMinutes then MinimumMinutes else floored
  {
    var mins := Trunc(hoursPerDay * 60.0 * Share(s, total));
    if mins < MinimumMinutes then MinimumMinutes else mins
  }

  /** One line of the schedule. */
  datatype Slot = Slot(name: string, minutes: int)

  /** `suggest_daily_schedule`: a prompt when there is nothing to schedule, else one slot per subject. */
  datatype DailySchedule = AddSubjectsFirst | Schedule(hoursPerDay: real, slots: seq<Slot>)

  function Slots(ordered: seq<Subject>, total: real, hoursPerDay: real): (r: seq<Slot>)
    ensures |r| == |ordered|
    ensures forall i :: 0 <= i < |r| ==> r[i] == Slot(ordered[i].name, Minutes(ordered[i], total, hoursPerDay))
  {
    if ordered == [] then []
    else [Slot(ordered[0].name, Minutes(ordered[0], total, hoursPerDay))] + Slots(ordered[1..], total, hoursPerDay)
  }

  function Names(s: seq<Subject>): seq<string> {
    if s == [] then [] else [s[0].name] + Names(s[1..])
  }

  function SlotNames(slots: seq<Slot>): seq<string> {
    if slots == [] then [] else [slots[0].name] + SlotNames(slots[1..])
  }

  function SuggestDailySchedule(subjects: seq<Subject>, hoursPerDay: real): (r: DailySchedule)
    ensures r.AddSubjectsFirst? <==> subjects == []
    ensures r.Schedule? ==> r.hoursPerDay == hoursPerDay && |r.slots| == |subjects|
    ensures r.Schedule? ==> forall i :: 0 <= i < |r.slots| ==> r.slots[i].minutes >= MinimumMinutes
  {
    if subjects == [] then AddSubjectsFirst
    else Schedule(hoursPerDay, Slots(ScheduleOrder(subjects), TotalWeight(subjects), hoursPerDay))
  }

  lemma {:induction false} InsertNames(x: Subject, t: seq<Subject>)
    ensures multiset(Names(Insert(x, t))) == multiset(Names(t)) + multiset{x.name}
  {
    if t == [] || ComesBefore(x, t[0]) {
      assert ([x] + t)[1..] == t;
    } else {
      InsertNames(x, t[1..]);
      assert ([t[0]] + Insert(x, t[1..]))[1..] == Insert(x, t[1..]);
      assert Names(t) == [t[0].name] + Names(t[1..]);
    }
  }

  lemma {:induction false} ScheduleOrderNames(s: seq<Subject>)
    ensures multiset(Names(ScheduleOrder(s))) == multiset(Names(s))
  {
    if s != [] {
      ScheduleOrderNames(s[1..]);
      InsertNames(s[0], ScheduleOrder(s[1..]));
    }
  }

  lemma {:induction false} SlotNamesAreNames(ordered: seq<Subject>, total: real, hoursPerDay: real)
    ensures SlotNames(Slots(ordered, total, hoursPerDay)) == Names(ordered)
  {
    if ordered != [] {
      SlotNamesAreNames(ordered[1..], total, hoursPerDay);
    }
  }

  /** The schedule names every subject exactly as often as the plan holds it. */
  lemma EverySubjectScheduledOnce(subjects: seq<Subject>, hoursPerDay: real)
    requires subjects != []
    ensures multiset(SlotNames(SuggestDailySchedule(subjects, hoursPerDay).slots)) == multiset(Names(subjects))
  {
    SlotNamesAreNames(ScheduleOrder(subjects), TotalWeight(subjects), hoursPerDay);
    ScheduleOrderNames(subjects);
  }

  /**
    The schedule lists the subjects in sorted order: its `i`-th slot is the
    `i`-th subject of a stable, sorted permutation of the plan, with the
    minutes that subject's share earns.
   */
  lemma ScheduleFollowsOrder(subjects: seq<Subject>, hoursPerDay: real, i: nat)
    requires subjects != [] && i < |subjects|
    ensures var ordered := ScheduleOrder(subjects);
      && multiset(ordered) == multiset(subjects)
      && SortedForSchedule(ordered)
      && (forall k :: WithKeyOf(ordered, k) == WithKeyOf(subjects, k))
      && SuggestDailySchedule(subjects, hoursPerDay).slots[i]
         == Slot(ordered[i].name, Minutes(ordered[i], TotalWeight(subjects), hoursPerDay))
  {
    forall k ensures WithKeyOf(ScheduleOrder(subjects), k) == WithKeyOf(subjects, k) {
      ScheduleOrderStable(subjects, k);
    }
  }

  // ---------------------------------------------------------------------
  // Parsing "add ..." messages
  // ---------------------------------------------------------------------

  /** A parsed add command: the subject's name and its weekly hours. */
  datatype AddCommand = AddCommand(name: string, hours: real)

  /** The hours a subject gets when the message gives none, or gives 0. */
  const DefaultHours: real := 2.0

  /** The lower-cased, stripped message asks to add: it starts with "add " or holds " add ". */
  predicate IsAddMessage(t: string) {
    StartsWith(t, "add ") || Contains(t, " add ")
  }

  /** Python's `s.split(sep, 1)[-1]`: what follows the first `sep`, or all of `s` when there is none. */
  function AfterFirst(s: string, sep: string): (r: string)
    ensures |r| <= |s| && r == s[|s| - |r|..]
    ensures !Contains(s, sep) ==> r == s
  {
    match IndexOf(s, sep)
    case Some(i) => s[i + |sep|..]
    case None => s
  }

  /** Where `sep` first occurs at `i`, what follows it starts at `i + |sep|`. */
  lemma AfterFirstAt(s: string, sep: string, i: nat)
    requires IndexOf(s, sep) == Some(i)
    ensures AfterFirst(s, sep) == s[i + |sep|..]
  {
  }

  /**
    The text after the add keyword, as the source computes it: the keyword
    is looked for in the lower-cased text, but in the " add " case the
    ORIGINAL text is split on the lower-case " add ", so a keyword written
    with capitals is not found there and the whole text is kept.
   */
  function AddRestAsWritten(text: string): (r: Option<string>)
    ensures r.Some? <==> IsAddMessage(Lower(Strip(text)))
  {
    var s := Strip(text);
    var t := Lower(s);
    if StartsWith(t, "add ") then Some(Strip(s[4..]))
    else if Contains(t, " add ") then Some(Strip(AfterFirst(s, " add ")))
    else None
  }

  /** Where the text after the keyword starts: after a leading "add ", else after the first " add ". */
  function KeywordEnd(t: string): (k: Option<nat>)
    ensures k.Some? <==> IsAddMessage(t)
    ensures k.Some? ==> k.value <= |t|
  {
    if StartsWith(t, "add ") then Some(4)
    else match IndexOf(t, " add ")
      case Some(i) => Some(i + 5)
      case None => None
  }

  /**
    The text after the add keyword, cut where the keyword is found in the
    lower-cased text; the rest keeps its original letter case.
   */
  function AddRest(text: string): (r: Option<string>)
    ensures r.Some? <==> IsAddMessage(Lower(Strip(text)))
  {
    var s := Strip(text);
    match KeywordEnd(Lower(s))
    case None => None
    case Some(k) => Some(Strip(s[k..]))
  }

  /** `rest.replace("subject", "").replace("topic", "").strip()` */
  function RemoveFillers(rest: string): (r: string)
    ensures |r| <= |rest| && Trimmed(r)
    ensures !Contains(rest, "subject") && !Contains(rest, "topic") && Trimmed(rest) ==> r == rest
  {
    Strip(RemoveAll(RemoveAll(rest, "subject"), "topic"))
  }

  /** The position of the first token that reads as a number, or the number of tokens when none does. */
  function FirstNumber(parts: seq<string>): (k: nat)
    ensures k <= |parts|
    ensures k < |parts| ==> ParseNumber(parts[k]).Some?
    ensures forall j :: 0 <= j < k ==> ParseNumber(parts[j]).None?
  {
    if parts == [] then 0
    else if ParseNumber(parts[0]).Some? then 0
    else
      var k := FirstNumber(parts[1..]);
      assert forall j :: 1 <= j <= k ==> parts[j] == parts[1..][j - 1];
      1 + k
  }

  /** `FirstNumber` is the one position where the numbers start. */
  lemma FirstNumberIs(parts: seq<string>, k: nat)
    requires k <= |parts|
    requires k < |parts| ==> ParseNumber(parts[k]).Some?
    requires forall j :: 0 <= j < k ==> ParseNumber(parts[j]).None?
    ensures FirstNumber(parts) == k
  {
  }

  /**
    The command the tokens give: the hours are the first token that reads as
    a number, the name the tokens before it joined by single spaces (the
    first token when none precede it); no hours, or 0, mean `DefaultHours`.
    The source's `if not name: return None` is not modelled as a branch:
    the name is never empty, which the contract states.
   */
  function CommandOf(parts: seq<string>): (c: AddCommand)
    requires parts != [] && Words(parts)
    ensures c.name != [] && Trimmed(c.name) && c.hours != 0.0
  {
    var k := FirstNumber(parts);
    var hours := if k < |parts| then ParseNumber(parts[k]).value else 0.0;
    var name := if k > 0 then Join(parts[..k]) else parts[0];
    JoinTrimmed(parts[..if k > 0 then k else 1]);
    AddCommand(Strip(name), if hours == 0.0 then DefaultHours else hours)
  }

  /** The command in what follows the keyword, once the filler words are gone. */
  function ParseRest(rest: string): (r: Option<AddCommand>)
    ensures r.None? <==> RemoveFillers(rest) == []
    ensures r.Some? ==> r.value.name != [] && Trimmed(r.value.name) && r.value.hours != 0.0
  {
    var cleaned := RemoveFillers(rest);
    if cleaned == [] then None else Some(CommandOf(Split(cleaned)))
  }

  /** `parse_add_command` as written: the parser the bot runs. */
  function ParseAddAsWritten(text: string): (r: Option<AddCommand>)
    ensures r.None? <==> AddRestAsWritten(text).None? || RemoveFillers(AddRestAsWritten(text).value) == []
    ensures r.Some? ==> r.value.name != [] && Trimmed(r.value.name) && r.value.hours != 0.0
  {
    match AddRestAsWritten(text)
    case None => None
    case Some(rest) => ParseRest(rest)
  }

  /** `parse_add_command` with the keyword cut found case-insensitively. */
  function ParseAdd(text: string): (r: Option<AddCommand>)
    ensures r.None? <==> AddRest(text).None? || RemoveFillers(AddRest(text).value) == []
    ensures r.Some? ==> r.value.name != [] && Trimmed(r.value.name) && r.value.hours != 0.0
  {
    match AddRest(text)
    case None => None
    case Some(rest) => ParseRest(rest)
  }

  /**
    The token scan of `parse_add_command`: the tokens before the first one
    that reads as a number, and that number (0 when there is none).
   */
  method ScanTokens(parts: seq<string>) returns (nameParts: seq<string>, hours: real)
    ensures nameParts == parts[..FirstNumber(parts)]
    ensures hours == if FirstNumber(parts) < |parts| then ParseNumber(parts[FirstNumber(parts)]).value else 0.0
  {
    nameParts, hours := [], 0.0;
    var i := 0;
    while i < |parts|
      invariant i <= |parts|
      invariant forall j :: 0 <= j < i ==> ParseNumber(parts[j]).None?
      invariant nameParts == parts[..i]
      invariant hours == 0.0
    {
      var value := ParseNumber(parts[i]);
      if value.Some? {
        FirstNumberIs(parts, i);
        hours := value.value;
        break;
      }
      assert parts[..i + 1] == parts[..i] + [parts[i]];
      nameParts := nameParts + [parts[i]];
      i := i + 1;
    }
    if i == |parts| {
      FirstNumberIs(parts, i);
    }
  }

  /** What the scan finds makes up the command of the tokens. */
  lemma CommandOfScan(parts: seq<string>, nameParts: seq<string>, c: AddCommand)
    requires parts != [] && Words(parts)
    requires nameParts == parts[..FirstNumber(parts)]
    requires c.name == Strip(if nameParts != [] then Join(nameParts) else parts[0])
    requires c.hours == (var k := FirstNumber(parts);
                         var h := if k < |parts| then ParseNumber(parts[k]).value else 0.0;
                         if h == 0.0 then DefaultHours else h)
    ensures CommandOf(parts) == c
  {
  }

  /** `parse_add_command`, run step by step as the source runs it. */
  method ParseAddCommand(text: string) returns (r: Option<AddCommand>)
    ensures r == ParseAddAsWritten(text)
  {
    var rest := AddRestAsWritten(text);
    if rest.None? {
      return None;
    }
    var cleaned := RemoveFillers(rest.value);
    if cleaned == [] {
      return None;
    }
    var parts := Split(cleaned);
    var nameParts, hours := ScanTokens(parts);
    var name := if nameParts != [] then Join(nameParts) else parts[0];
    if hours == 0.0 {
      hours := DefaultHours;
    }
    r := Some(AddCommand(Strip(name), hours));
    CommandOfScan(parts, nameParts, r.value);
  }

  // ---------------------------------------------------------------------
  // What the parser gives back
  // ---------------------------------------------------------------------

  /** A word the parser keeps in a name: a token that is not a number and holds no filler word. */
  predicate NameWord(w: string) {
    w != [] && NoSpace(w) && ParseNumber(w).None? && !Contains(w, "subject") && !Contains(w, "topic")
  }

  predicate NameWords(names: seq<string>) {
    forall i :: 0 <= i < |names| ==> NameWord(names[i])
  }

  predicate Letters(w: string) {
    forall i :: 0 <= i < |w| ==> 'A' <= w[i] <= 'Z' || 'a' <= w[i] <= 'z'
  }

  /** A word of letters lacking a letter of each filler word is a name word. */
  lemma LetterWord(w: string, ks: nat, kt: nat)
    requires w != [] && Letters(w)
    requires ks < 7 && kt < 5 && "subject"[ks] !in w && "topic"[kt] !in w
    ensures NameWord(w)
  {
    NotNumber(w);
    LacksChar(w, "subject", ks);
    LacksChar(w, "topic", kt);
  }

  /** Words of letters that each lack the letter `cs` of "subject" and `ct` of "topic" are name words. */
  lemma LetterNames(names: seq<string>, cs: char, ct: char)
    requires cs in "subject" && ct in "topic"
    requires forall i :: 0 <= i < |names| ==> names[i] != [] && Letters(names[i]) && cs !in names[i] && ct !in names[i]
    ensures NameWords(names)
  {
    var ks :| 0 <= ks < 7 && "subject"[ks] == cs;
    var kt :| 0 <= kt < 5 && "topic"[kt] == ct;
    forall i | 0 <= i < |names| ensures NameWord(names[i]) {
      LetterWord(names[i], ks, kt);
    }
  }

  /** A numeral never holds a filler word. */
  lemma NumeralHasNoFiller(d: string)
    requires AllDigits(d)
    ensures NoSpace(d) && !Contains(d, "subject") && !Contains(d, "topic")
  {
    LacksChar(d, "subject", 0);
    LacksChar(d, "topic", 0);
  }

  /** Removing a word that no part contains leaves their join unchanged. */
  lemma RemoveAllAvoided(parts: seq<string>, o: string)
    requires o != [] && NoSpace(o) && Avoid(parts, o)
    ensures RemoveAll(Join(parts), o) == Join(parts)
  {
    JoinAvoids(parts, o);
  }

  /** Neither filler removal changes a join of parts without the fillers. */
  lemma FillerRemovalsAvoided(parts: seq<string>)
    requires Avoid(parts, "subject") && Avoid(parts, "topic")
    ensures RemoveAll(Join(parts), "subject") == Join(parts) && RemoveAll(Join(parts), "topic") == Join(parts)
  {
    FillersHaveNoSpace("subject", "topic");
    RemoveAllAvoided(parts, "subject");
    RemoveAllAvoided(parts, "topic");
  }

  lemma FillersHaveNoSpace(f: string, g: string)
    requires f == "subject" && g == "topic"
    ensures f != [] && NoSpace(f) && g != [] && NoSpace(g)
  {
  }

  /** Trimmed text that neither filler removal changes is left as it is. */
  lemma FillersUnchanged(rest: string)
    requires RemoveAll(rest, "subject") == rest && RemoveAll(rest, "topic") == rest && Trimmed(rest)
    ensures RemoveFillers(rest) == rest
  {
    StripOfTrimmed(rest);
  }

  /** Removing the filler words leaves a join of words without them unchanged. */
  lemma FillersAbsent(parts: seq<string>)
    requires parts != [] && Words(parts) && Avoid(parts, "subject") && Avoid(parts, "topic")
    ensures Join(parts) != [] && RemoveFillers(Join(parts)) == Join(parts)
  {
    FillerRemovalsAvoided(parts);
    JoinTrimmed(parts);
    FillersUnchanged(Join(parts));
  }

  /** `strip()` drops a single space before trimmed text. */
  lemma StripLeadingSpace(j: string)
    requires j != [] && Trimmed(j)
    ensures Strip(" " + j) == j
  {
    TrimStartAfterSpace(" ", j);
    TrimStartKeeps(j);
    StripOfTrimmed(j);
  }

  /** A space before a join of words without `o` is kept by the removal of `o`. */
  lemma SpaceThenJoinAvoided(parts: seq<string>, o: string)
    requires o != [] && NoSpace(o) && Avoid(parts, o)
    ensures RemoveAll(" " + Join(parts), o) == " " + Join(parts)
  {
    RemoveAllAvoided(parts, o);
    assert !IsSpace(o[0]);
    FirstCharDiffers(" " + Join(parts), o);
    RemoveAllKeeps(' ', Join(parts), o);
  }

  /** Filler removal deletes a leading "subject" and the space after it is stripped. */
  lemma SubjectBeforeWords(f: string, parts: seq<string>)
    requires f == "subject"
    requires parts != [] && Words(parts) && Avoid(parts, "subject") && Avoid(parts, "topic")
    ensures RemoveFillers(f + " " + Join(parts)) == Join(parts)
  {
    var j := Join(parts);
    FillersHaveNoSpace("subject", "topic");
    JoinTrimmed(parts);
    assert f + " " + j == f + (" " + j);
    RemoveAllPrefix(f, " " + j);
    SpaceThenJoinAvoided(parts, "subject");
    SpaceThenJoinAvoided(parts, "topic");
    StripLeadingSpace(j);
  }

  /** Filler removal deletes a leading "topic" and the space after it is stripped. */
  lemma TopicBeforeWords(f: string, parts: seq<string>)
    requires f == "topic"
    requires parts != [] && Words(parts) && Avoid(parts, "subject") && Avoid(parts, "topic")
    ensures RemoveFillers(f + " " + Join(parts)) == Join(parts)
  {
    var j := Join(parts);
    FillersHaveNoSpace("subject", "topic");
    JoinTrimmed(parts);
    JoinAvoids(parts, "subject");
    LacksChar(f, "subject", 0);
    if Contains(f + " " + j, "subject") {
      ContainsAcrossSpace(f, j, "subject");
    }
    assert f + " " + j == f + (" " + j);
    RemoveAllPrefix(f, " " + j);
    SpaceThenJoinAvoided(parts, "topic");
    StripLeadingSpace(j);
  }

  /** A filler word before words without fillers is dropped: "subject Physics" leaves "Physics". */
  lemma FillerBeforeWords(f: string, parts: seq<string>)
    requires f == "subject" || f == "topic"
    requires parts != [] && Words(parts) && Avoid(parts, "subject") && Avoid(parts, "topic")
    ensures RemoveFillers(f + " " + Join(parts)) == Join(parts)
  {
    if f == "subject" {
      SubjectBeforeWords(f, parts);
    } else {
      TopicBeforeWords(f, parts);
    }
  }

  /** A filler word alone leaves nothing. */
  lemma FillerAlone(f: string)
    requires f == "subject" || f == "topic"
    ensures RemoveFillers(f) == []
  {
    assert f + [] == f;
    if f == "subject" {
      RemoveAllPrefix(f, []);
    } else {
      RemoveAllPrefix(f, []);
    }
  }

  /** Words without filler words pass through the filler removal and `split()` unchanged. */
  lemma ParseRestOfWords(parts: seq<string>)
    requires parts != [] && Words(parts) && Avoid(parts, "subject") && Avoid(parts, "topic")
    ensures ParseRest(Join(parts)) == Some(CommandOf(parts))
  {
    FillersAbsent(parts);
    SplitJoin(parts);
  }

  /** Any text that is such a join parses to the tokens' command. */
  lemma ParseRestOfText(parts: seq<string>, text: string, c: AddCommand)
    requires parts != [] && Words(parts) && Avoid(parts, "subject") && Avoid(parts, "topic")
    requires text == Join(parts) && c == CommandOf(parts)
    ensures ParseRest(text) == Some(c)
  {
    ParseRestOfWords(parts);
  }

  /** Name words and then a number: the words are the name, the number the hours. */
  lemma CommandOfNameThenNumber(names: seq<string>, d: string)
    requires names != [] && Words(names) && (forall i :: 0 <= i < |names| ==> ParseNumber(names[i]).None?)
    requires d != [] && NoSpace(d) && ParseNumber(d).Some?
    ensures Words(names + [d])
    ensures CommandOf(names + [d])
         == AddCommand(Join(names), if ParseNumber(d).value == 0.0 then DefaultHours else ParseNumber(d).value)
  {
    var parts := names + [d];
    WordsAppend(names, d);
    assert parts[..|names|] == names;
    assert forall j :: 0 <= j < |names| ==> parts[j] == names[j];
    FirstNumberIs(parts, |names|);
    JoinTrimmed(names);
  }

  /**
    Name words, a number and then any further words: the words before the
    number are the name, the number the hours; what follows is ignored.
   */
  lemma CommandOfNameNumberMore(names: seq<string>, d: string, more: seq<string>)
    requires names != [] && Words(names) && (forall i :: 0 <= i < |names| ==> ParseNumber(names[i]).None?)
    requires d != [] && NoSpace(d) && ParseNumber(d).Some? && Words(more)
    ensures Words(names + [d] + more)
    ensures CommandOf(names + [d] + more)
         == AddCommand(Join(names), if ParseNumber(d).value == 0.0 then DefaultHours else ParseNumber(d).value)
  {
    WordsAppend(names, d);
    WordsConcat(names + [d], more);
    NumberAfterNames(names, d, more);
    JoinTrimmed(names);
  }

  /** In name words, a number and more words, the number is the first one and the names precede it. */
  lemma NumberAfterNames(names: seq<string>, d: string, more: seq<string>)
    requires forall i :: 0 <= i < |names| ==> ParseNumber(names[i]).None?
    requires ParseNumber(d).Some?
    ensures FirstNumber(names + [d] + more) == |names|
    ensures (names + [d] + more)[..|names|] == names && (names + [d] + more)[|names|] == d
  {
    var parts := names + [d] + more;
    assert parts[..|names|] == names;
    assert parts[|names|] == d;
    assert forall j :: 0 <= j < |names| ==> parts[j] == names[j];
    FirstNumberIs(parts, |names|);
  }

  /** Name words and no number: the words are the name, the hours the default. */
  lemma CommandOfNameOnly(names: seq<string>)
    requires names != [] && Words(names) && (forall i :: 0 <= i < |names| ==> ParseNumber(names[i]).None?)
    ensures CommandOf(names) == AddCommand(Join(names), DefaultHours)
  {
    FirstNumberIs(names, |names|);
    assert names[..|names|] == names;
    JoinTrimmed(names);
  }

  /** Name words and then a numeral are words free of filler words. */
  lemma NameThenNumeral(names: seq<string>, d: string)
    requires NameWords(names) && d != [] && AllDigits(d)
    ensures Words(names + [d]) && Avoid(names + [d], "subject") && Avoid(names + [d], "topic")
  {
    NumeralHasNoFiller(d);
    WordsAppend(names, d);
    AvoidAppend(names, d, "subject");
    AvoidAppend(names, d, "topic");
  }

  /** Name words followed by a count of hours read back as that name and those hours. */
  lemma ParseRestRoundTrip(names: seq<string>, n: nat)
    requires names != [] && NameWords(names)
    ensures ParseRest(Join(names) + " " + NatToString(n))
         == Some(AddCommand(Join(names), if n == 0 then DefaultHours else n as real))
  {
    var d := NatToString(n);
    var parts := names + [d];
    var c := AddCommand(Join(names), if n == 0 then DefaultHours else n as real);
    NameThenNumeral(names, d);
    NatRoundTrip(n);
    CommandOfNameThenNumber(names, d);
    JoinAppend(names, d);
    ParseRestOfText(parts, Join(names) + " " + d, c);
  }

  /** Name words without a number read back as that name and the default hours. */
  lemma ParseRestWithoutHours(names: seq<string>)
    requires names != [] && NameWords(names)
    ensures ParseRest(Join(names)) == Some(AddCommand(Join(names), DefaultHours))
  {
    ParseRestOfWords(names);
    CommandOfNameOnly(names);
  }

  /** Four characters the source's prefix test accepts: "add " in any letter case. */
  predicate AddPrefix(p: string) {
    |p| == 4 && Lower(p) == "add "
  }

  /** The prefix as the source's examples write it. */
  lemma LowerCasePrefix(p: string)
    requires p == "add "
    ensures AddPrefix(p)
  {
    LowerOfLower(p);
  }

  /** The prefix as the greeting and the help text write it. */
  lemma CapitalPrefix(p: string)
    requires p == "Add "
    ensures AddPrefix(p)
  {
    LowerIs(p, "add ");
  }

  /** An add prefix before trimmed text leaves nothing for `strip()` to remove. */
  lemma PrefixedTrimmed(p: string, rest: string)
    requires AddPrefix(p) && rest != [] && Trimmed(rest)
    ensures Strip(p + rest) == p + rest
  {
    var text := p + rest;
    assert LowerChar(p[0]) == Lower(p)[0] == 'a';
    assert text[0] == p[0];
    assert text[|text| - 1] == rest[|rest| - 1];
    StripOfTrimmed(text);
  }

  /** The lower case of an add prefix and any text starts with "add ". */
  lemma PrefixedLower(p: string, rest: string)
    requires AddPrefix(p)
    ensures StartsWith(Lower(p + rest), "add ")
  {
    LowerSlice(p + rest, 0, 4);
    assert (p + rest)[0..4] == p;
  }

  /** A message that starts with "add ", in any letter case, asks to add what follows it. */
  lemma AddRestOfPrefixed(p: string, rest: string)
    requires AddPrefix(p) && rest != [] && Trimmed(rest)
    ensures AddRest(p + rest) == Some(rest)
    ensures AddRestAsWritten(p + rest) == Some(rest)
  {
    CorrectedCutOfPrefixed(p, rest);
    AsWrittenCutOfPrefixed(p, rest);
  }

  lemma CorrectedCutOfPrefixed(p: string, rest: string)
    requires AddPrefix(p) && rest != [] && Trimmed(rest)
    ensures AddRest(p + rest) == Some(rest)
  {
    var text := p + rest;
    PrefixedTrimmed(p, rest);
    PrefixedLower(p, rest);
    assert KeywordEnd(Lower(text)) == Some(4);
    assert text[4..] == rest;
  }

  lemma AsWrittenCutOfPrefixed(p: string, rest: string)
    requires AddPrefix(p) && rest != [] && Trimmed(rest)
    ensures AddRestAsWritten(p + rest) == Some(rest)
  {
    var text := p + rest;
    PrefixedTrimmed(p, rest);
    PrefixedLower(p, rest);
    assert text[4..] == rest;
  }

  /** A name of words, a space and a numeral make trimmed text. */
  lemma NameAndNumeralTrimmed(names: seq<string>, d: string)
    requires names != [] && Words(names) && d != [] && AllDigits(d)
    ensures Join(names) + " " + d != [] && Trimmed(Join(names) + " " + d)
  {
    NumeralHasNoFiller(d);
    WordsAppend(names, d);
    JoinTrimmed(names + [d]);
    JoinAppend(names, d);
  }

  /** The command of a message is the command of the text after its keyword. */
  lemma ParseAddOfRest(text: string, rest: string, c: AddCommand)
    requires AddRest(text) == Some(rest) && ParseRest(rest) == Some(c)
    ensures ParseAdd(text) == Some(c)
  {
  }

  /**
    "add <name> <hours>", with "add" in any letter case, parses to that name
    and those hours (0 hours become the default).
   */
  lemma ParseAddRoundTrip(p: string, names: seq<string>, n: nat)
    requires AddPrefix(p) && names != [] && NameWords(names)
    ensures ParseAddAsWritten(p + Join(names) + " " + NatToString(n))
         == Some(AddCommand(Join(names), if n == 0 then DefaultHours else n as real))
    ensures ParseAdd(p + Join(names) + " " + NatToString(n))
         == Some(AddCommand(Join(names), if n == 0 then DefaultHours else n as real))
  {
    var d := NatToString(n);
    var rest := Join(names) + " " + d;
    var text := p + Join(names) + " " + d;
    var c := AddCommand(Join(names), if n == 0 then DefaultHours else n as real);
    NameAndNumeralTrimmed(names, d);
    assert text == p + rest;
    AddRestOfPrefixed(p, rest);
    ParseRestRoundTrip(names, n);
    ParseAddOfRest(text, rest, c);
    ParseAddAsWrittenOfRest(text, rest, c);
  }

  /** "add <name>" without hours parses to that name and the default hours. */
  lemma ParseAddWithoutHours(p: string, names: seq<string>)
    requires AddPrefix(p) && names != [] && NameWords(names)
    ensures ParseAddAsWritten(p + Join(names)) == Some(AddCommand(Join(names), DefaultHours))
    ensures ParseAdd(p + Join(names)) == Some(AddCommand(Join(names), DefaultHours))
  {
    var c := AddCommand(Join(names), DefaultHours);
    JoinTrimmed(names);
    AddRestOfPrefixed(p, Join(names));
    ParseRestWithoutHours(names);
    ParseAddOfRest(p + Join(names), Join(names), c);
    ParseAddAsWrittenOfRest(p + Join(names), Join(names), c);
  }

  /**
    Words after the number are ignored: "add <name> <hours> <more words>"
    parses to that name and those hours, as in "add Math 5 hours".
   */
  lemma ParseAddWithTrailingWords(p: string, names: seq<string>, n: nat, more: seq<string>)
    requires AddPrefix(p) && names != [] && NameWords(names) && more != [] && NameWords(more)
    ensures ParseAddAsWritten(p + (Join(names) + " " + NatToString(n) + " " + Join(more)))
         == Some(AddCommand(Join(names), if n == 0 then DefaultHours else n as real))
  {
    var d := NatToString(n);
    var parts := names + [d] + more;
    var rest := Join(names) + " " + d + " " + Join(more);
    var c := AddCommand(Join(names), if n == 0 then DefaultHours else n as real);
    NameThenNumeral(names, d);
    AvoidConcat(names + [d], more, "subject");
    AvoidConcat(names + [d], more, "topic");
    WordsConcat(names + [d], more);
    NatRoundTrip(n);
    CommandOfNameNumberMore(names, d, more);
    JoinAppend(names, d);
    JoinConcat(names + [d], more);
    JoinTrimmed(parts);
    ParseRestOfText(parts, rest, c);
    AddRestOfPrefixed(p, rest);
    ParseAddAsWrittenOfRest(p + rest, rest, c);
  }

  /** The rest after "add" is parsed from what filler removal leaves. */
  lemma ParseRestOfCleaned(rest: string, parts: seq<string>)
    requires parts != [] && Words(parts) && RemoveFillers(rest) == Join(parts)
    ensures ParseRest(rest) == Some(CommandOf(parts))
  {
    JoinTrimmed(parts);
    SplitJoin(parts);
  }

  /** "add <filler> <name> <hours>": the filler word is dropped before the name is read. */
  lemma ParseAddFillerFirst(p: string, f: string, names: seq<string>, n: nat)
    requires AddPrefix(p) && (f == "subject" || f == "topic") && names != [] && NameWords(names)
    ensures ParseAddAsWritten(p + (f + " " + (Join(names) + " " + NatToString(n))))
         == Some(AddCommand(Join(names), if n == 0 then DefaultHours else n as real))
  {
    var d := NatToString(n);
    var parts := names + [d];
    var j := Join(names) + " " + d;
    var rest := f + " " + j;
    var c := AddCommand(Join(names), if n == 0 then DefaultHours else n as real);
    NameThenNumeral(names, d);
    JoinAppend(names, d);
    JoinTrimmed(parts);
    FillerBeforeWords(f, parts);
    assert rest[0] == f[0] && rest[|rest| - 1] == j[|j| - 1];
    FillerStartsWord(f);
    AddRestOfPrefixed(p, rest);
    NatRoundTrip(n);
    CommandOfNameThenNumber(names, d);
    ParseRestOfCleaned(rest, parts);
    ParseAddAsWrittenOfRest(p + rest, rest, c);
  }

  /** A filler word starts with a letter. */
  lemma FillerStartsWord(f: string)
    requires f == "subject" || f == "topic"
    ensures f != [] && !IsSpace(f[0])
  {
  }

  /** "add subject" and "add topic" are not add commands: nothing is left once the filler is gone. */
  lemma ParseAddFillerOnly(p: string, f: string)
    requires AddPrefix(p) && (f == "subject" || f == "topic")
    ensures ParseAddAsWritten(p + f) == None
  {
    FillerStartsWord(f);
    assert Trimmed(f);
    AddRestOfPrefixed(p, f);
    FillerAlone(f);
  }

  /** A numeral alone is a word free of filler words, and its own join. */
  lemma NumeralAlone(d: string)
    requires d != [] && AllDigits(d)
    ensures Words([d]) && Avoid([d], "subject") && Avoid([d], "topic")
    ensures Join([d]) == d && Trimmed(d)
  {
    NumeralHasNoFiller(d);
    JoinTrimmed([d]);
  }

  /** A lone number is both the name and the hours. */
  lemma CommandOfNumeral(d: string)
    requires d != [] && NoSpace(d) && ParseNumber(d).Some?
    ensures Words([d])
    ensures CommandOf([d]) == AddCommand(d, if ParseNumber(d).value == 0.0 then DefaultHours else ParseNumber(d).value)
  {
    CommandOfNumberFirst(d, []);
    assert [d] + [] == [d];
  }

  /**
    A number first, then any words: no word precedes the number, so the
    number itself is the name, and it is also the hours.
   */
  lemma CommandOfNumberFirst(d: string, more: seq<string>)
    requires d != [] && NoSpace(d) && ParseNumber(d).Some? && Words(more)
    ensures Words([d] + more)
    ensures CommandOf([d] + more) == AddCommand(d, if ParseNumber(d).value == 0.0 then DefaultHours else ParseNumber(d).value)
  {
    WordsConcat([d], more);
    assert ([d] + more)[0] == d;
    FirstNumberIs([d] + more, 0);
    JoinTrimmed([d]);
    StripOfTrimmed(d);
  }

  /** "add <n>" names the subject after the number itself. */
  lemma ParseAddHoursOnly(p: string, n: nat)
    requires AddPrefix(p)
    ensures ParseAddAsWritten(p + NatToString(n))
         == Some(AddCommand(NatToString(n), if n == 0 then DefaultHours else n as real))
    ensures ParseAdd(p + NatToString(n))
         == Some(AddCommand(NatToString(n), if n == 0 then DefaultHours else n as real))
  {
    var d := NatToString(n);
    var c := AddCommand(d, if n == 0 then DefaultHours else n as real);
    NumeralAlone(d);
    AddRestOfPrefixed(p, d);
    NatRoundTrip(n);
    CommandOfNumeral(d);
    ParseRestOfText([d], d, c);
    ParseAddOfRest(p + d, d, c);
    ParseAddAsWrittenOfRest(p + d, d, c);
  }

  /**
    "add <n> <more words>" also names the subject after the number: the
    source takes the first token as the name when none precedes the number,
    so "add 5 hours" adds a subject named "5".
   */
  lemma ParseAddNumberFirst(p: string, n: nat, more: seq<string>)
    requires AddPrefix(p) && more != [] && NameWords(more)
    ensures ParseAddAsWritten(p + (NatToString(n) + " " + Join(more)))
         == Some(AddCommand(NatToString(n), if n == 0 then DefaultHours else n as real))
  {
    var d := NatToString(n);
    var parts := [d] + more;
    var rest := d + " " + Join(more);
    var c := AddCommand(d, if n == 0 then DefaultHours else n as real);
    NumeralAlone(d);
    AvoidConcat([d], more, "subject");
    AvoidConcat([d], more, "topic");
    NatRoundTrip(n);
    CommandOfNumberFirst(d, more);
    JoinConcat([d], more);
    JoinTrimmed(parts);
    ParseRestOfText(parts, rest, c);
    AddRestOfPrefixed(p, rest);
    ParseAddAsWrittenOfRest(p + rest, rest, c);
  }

  /** The parser strips the message first, so stripping it beforehand changes nothing. */
  lemma StrippedParsesAlike(text: string)
    ensures ParseAddAsWritten(Strip(text)) == ParseAddAsWritten(text)
  {
    StrippedCutsAlike(text);
  }

  lemma StrippedCutsAlike(text: string)
    ensures AddRestAsWritten(Strip(text)) == AddRestAsWritten(text)
  {
    StripOfTrimmed(Strip(text));
    SameStripCutsAlike(Strip(text), text);
  }

  /** The cut depends on the message only through its stripped form. */
  lemma SameStripCutsAlike(a: string, b: string)
    requires Strip(a) == Strip(b)
    ensures AddRestAsWritten(a) == AddRestAsWritten(b)
  {
  }

  /** Equal messages parse to the same command, or to none alike. */
  lemma ParseAddSameResult(t: string, u: string, r: Option<AddCommand>)
    requires t == u && ParseAddAsWritten(t) == r
    ensures ParseAddAsWritten(u) == r
  {
  }

  lemma LinearAlgebraNames(names: seq<string>)
    requires names == ["Linear", "Algebra"]
    ensures NameWords(names)
  {
    LetterNames(names, 'u', 'o');
  }

  lemma LinearAlgebraText(names: seq<string>)
    requires names == ["Linear", "Algebra"]
    ensures Join(names) == "Linear Algebra"
    ensures "add " + Join(names) + " " + NatToString(4) == "add Linear Algebra 4"
  {
  }

  lemma LinearAlgebraParsed(names: seq<string>)
    requires names == ["Linear", "Algebra"]
    ensures ParseAddAsWritten("add " + Join(names) + " " + NatToString(4)) == Some(AddCommand(Join(names), 4.0))
  {
    LinearAlgebraNames(names);
    LowerCasePrefix("add ");
    ParseAddRoundTrip("add ", names, 4);
  }

  /** The worked example of the parser's own documentation. */
  lemma AddLinearAlgebra()
    ensures ParseAddAsWritten("add Linear Algebra 4") == Some(AddCommand("Linear Algebra", 4.0))
  {
    var names := ["Linear", "Algebra"];
    LinearAlgebraParsed(names);
    LinearAlgebraText(names);
    ParseAddSameResult("add " + Join(names) + " " + NatToString(4), "add Linear Algebra 4", Some(AddCommand("Linear Algebra", 4.0)));
  }

  lemma MathFiveHoursWords(names: seq<string>, more: seq<string>)
    requires names == ["Math"] && more == ["hours"]
    ensures NameWords(names) && NameWords(more)
  {
    LetterNames(names, 'u', 'o');
    LetterNames(more, 'j', 'p');
  }

  lemma MathFiveHoursText(p: string, names: seq<string>, more: seq<string>)
    requires names == ["Math"] && more == ["hours"] && (p == "add " || p == "Add ")
    ensures Join(names) == "Math"
    ensures p + (Join(names) + " " + NatToString(5) + " " + Join(more))
         == (if p == "add " then "add Math 5 hours" else "Add Math 5 hours")
  {
  }

  /** The first example of the parser's own documentation: the word after the number is ignored. */
  lemma AddMathFiveHours()
    ensures ParseAddAsWritten("add Math 5 hours") == Some(AddCommand("Math", 5.0))
  {
    var names, more := ["Math"], ["hours"];
    MathFiveHoursWords(names, more);
    LowerCasePrefix("add ");
    ParseAddWithTrailingWords("add ", names, 5, more);
    MathFiveHoursText("add ", names, more);
    ParseAddSameResult("add " + (Join(names) + " " + NatToString(5) + " " + Join(more)), "add Math 5 hours", Some(AddCommand("Math", 5.0)));
  }

  /** The greeting's own example, with a capital: "Add Math 5 hours". */
  lemma CapitalAddMathFiveHours()
    ensures ParseAddAsWritten("Add Math 5 hours") == Some(AddCommand("Math", 5.0))
  {
    var names, more := ["Math"], ["hours"];
    MathFiveHoursWords(names, more);
    CapitalPrefix("Add ");
    ParseAddWithTrailingWords("Add ", names, 5, more);
    MathFiveHoursText("Add ", names, more);
    ParseAddSameResult("Add " + (Join(names) + " " + NatToString(5) + " " + Join(more)), "Add Math 5 hours", Some(AddCommand("Math", 5.0)));
  }

  lemma PhysicsWords(names: seq<string>)
    requires names == ["Physics"]
    ensures NameWords(names) && Join(names) == "Physics"
  {
    LetterNames(names, 'u', 'o');
  }

  lemma PhysicsText(p: string, names: seq<string>)
    requires names == ["Physics"] && (p == "add " || p == "Add ")
    ensures p + Join(names) == (if p == "add " then "add Physics" else "Add Physics")
  {
  }

  /** The last example of the parser's documentation: "add Physics" gets the default hours. */
  lemma AddPhysics()
    ensures ParseAddAsWritten("add Physics") == Some(AddCommand("Physics", DefaultHours))
  {
    var names := ["Physics"];
    PhysicsWords(names);
    LowerCasePrefix("add ");
    ParseAddWithoutHours("add ", names);
    PhysicsText("add ", names);
    ParseAddSameResult("add " + Join(names), "add Physics", Some(AddCommand("Physics", DefaultHours)));
  }

  /** The greeting's "Add Physics", with a capital, is the same command. */
  lemma CapitalAddPhysics()
    ensures ParseAddAsWritten("Add Physics") == Some(AddCommand("Physics", DefaultHours))
  {
    var names := ["Physics"];
    PhysicsWords(names);
    CapitalPrefix("Add ");
    ParseAddWithoutHours("Add ", names);
    PhysicsText("Add ", names);
    ParseAddSameResult("Add " + Join(names), "Add Physics", Some(AddCommand("Physics", DefaultHours)));
  }

  lemma FiveHoursText(more: seq<string>)
    requires more == ["hours"]
    ensures NatToString(5) == "5"
    ensures "add " + (NatToString(5) + " " + Join(more)) == "add 5 hours"
  {
  }

  /** "add 5 hours": no word precedes the number, so the subject is named "5". */
  lemma AddFiveHours()
    ensures ParseAddAsWritten("add 5 hours") == Some(AddCommand("5", 5.0))
  {
    var more := ["hours"];
    MathFiveHoursWords(["Math"], more);
    LowerCasePrefix("add ");
    ParseAddNumberFirst("add ", 5, more);
    FiveHoursText(more);
    ParseAddSameResult("add " + (NatToString(5) + " " + Join(more)), "add 5 hours", Some(AddCommand("5", 5.0)));
  }

  /** "add subject" is not an add command: the filler removal leaves nothing. */
  lemma AddSubjectAlone()
    ensures ParseAddAsWritten("add subject") == None
  {
    LowerCasePrefix("add ");
    ParseAddFillerOnly("add ", "subject");
    SubjectText("add ", "subject");
    ParseAddSameResult("add " + "subject", "add subject", None);
  }

  lemma SubjectText(p: string, f: string)
    requires p == "add " && f == "subject"
    ensures p + f == "add subject"
  {
  }

  lemma SubjectPhysicsText(names: seq<string>)
    requires names == ["Physics"]
    ensures "add " + ("subject" + " " + (Join(names) + " " + NatToString(3))) == "add subject Physics 3"
  {
  }

  /** "add subject Physics 3": the filler word is dropped, leaving "Physics" and 3 hours. */
  lemma AddSubjectPhysicsThree()
    ensures ParseAddAsWritten("add subject Physics 3") == Some(AddCommand("Physics", 3.0))
  {
    var names := ["Physics"];
    PhysicsWords(names);
    LowerCasePrefix("add ");
    ParseAddFillerFirst("add ", "subject", names, 3);
    SubjectPhysicsText(names);
    ParseAddSameResult("add " + ("subject" + " " + (Join(names) + " " + NatToString(3))), "add subject Physics 3", Some(AddCommand("Physics", 3.0)));
  }

  // ---------------------------------------------------------------------
  // The letter case of the keyword
  // ---------------------------------------------------------------------

  /** Lower-casing the stripped tail of `s` is stripping the tail of its lower case. */
  lemma LowerSuffixStrip(s: string, k: nat)
    requires k <= |s|
    ensures Lower(Strip(s[k..])) == Strip(Lower(s)[k..])
  {
    var t := s[k..];
    LowerStrip(t);
    LowerSuffix(s, k);
  }

  /** Lower-casing what follows the keyword is cutting the lower-cased message. */
  lemma LowerAddRest(u: string)
    requires AddRest(u).Some?
    ensures KeywordEnd(Strip(Lower(u))).Some?
    ensures Lower(AddRest(u).value) == Strip(Strip(Lower(u))[KeywordEnd(Strip(Lower(u))).value..])
  {
    var s := Strip(u);
    var l := Lower(s);
    LowerStrip(u);
    var k := KeywordEnd(l).value;
    assert AddRest(u) == Some(Strip(s[k..]));
    LowerSuffixStrip(s, k);
  }

  /** The corrected cut: two messages that differ only in letter case find the same rest, up to case. */
  lemma AddRestIgnoresCase(u: string, v: string)
    requires Lower(u) == Lower(v)
    ensures AddRest(u).Some? == AddRest(v).Some?
    ensures AddRest(u).Some? ==> Lower(AddRest(u).value) == Lower(AddRest(v).value)
  {
    LowerStrip(u);
    LowerStrip(v);
    if AddRest(u).Some? {
      LowerAddRest(u);
      LowerAddRest(v);
    }
  }

  /** `p` first occurs in `s` at `i`. */
  lemma FirstOccurrence(s: string, p: string, i: nat)
    requires MatchAt(s, p, i)
    requires forall j: nat :: j < i ==> !MatchAt(s, p, j)
    ensures IndexOf(s, p) == Some(i)
  {
  }

  lemma KeywordIsLowerCase(p: string)
    requires p == " add "
    ensures Lower(p) == p
  {
    LowerOfLower(p);
  }

  /** A lower-case pattern found in `s` is found at the same place in its lower case. */
  lemma LowerKeepsMatch(s: string, p: string, i: nat)
    requires MatchAt(s, p, i) && Lower(p) == p
    ensures MatchAt(Lower(s), p, i)
  {
    LowerSlice(s, i, i + |p|);
  }

  /**
    As written, a keyword that only the lower-cased message holds is not
    cut from the original: what follows the keyword is the whole message.
   */
  lemma AsWrittenMissesKeyword(text: string)
    requires IsAddMessage(Lower(Strip(text))) && !StartsWith(Lower(Strip(text)), "add ")
    requires !Contains(Strip(text), " add ")
    ensures AddRestAsWritten(text) == Some(Strip(text))
  {
  }

  /** As written, the " add " case takes what follows the first " add " of the original text. */
  lemma AsWrittenSplits(text: string)
    requires !StartsWith(Lower(Strip(text)), "add ") && Contains(Lower(Strip(text)), " add ")
    ensures AddRestAsWritten(text) == Some(Strip(AfterFirst(Strip(text), " add ")))
  {
  }

  /** As written, the " add " case cuts the original text after its first " add ". */
  lemma AsWrittenCutAfter(text: string, i: nat)
    requires !StartsWith(Lower(Strip(text)), "add ") && Contains(Lower(Strip(text)), " add ")
    requires IndexOf(Strip(text), " add ") == Some(i)
    ensures AddRestAsWritten(text) == Some(Strip(Strip(text)[i + 5..]))
  {
    AsWrittenSplits(text);
    AfterFirstAt(Strip(text), " add ", i);
  }

  /** As written, a lower-case keyword in the middle is cut where the original holds it. */
  lemma AsWrittenCutsAt(text: string, i: nat)
    requires !StartsWith(Lower(Strip(text)), "add ")
    requires IndexOf(Strip(text), " add ") == Some(i)
    ensures AddRestAsWritten(text) == Some(Strip(Strip(text)[i + 5..]))
  {
    var s := Strip(text);
    KeywordIsLowerCase(" add ");
    LowerKeepsMatch(s, " add ", i);
    ContainsAt(Lower(s), " add ", i);
    AsWrittenCutAfter(text, i);
  }

  /** Without a leading "add ", the keyword ends five characters after the first " add ". */
  lemma KeywordInMiddle(t: string, i: nat)
    requires !StartsWith(t, "add ")
    requires IndexOf(t, " add ") == Some(i)
    ensures KeywordEnd(t) == Some(i + 5)
  {
  }

  /** The corrected rest is what follows the end of the keyword, stripped. */
  lemma AddRestAt(text: string, k: nat)
    requires KeywordEnd(Lower(Strip(text))) == Some(k)
    ensures AddRest(text) == Some(Strip(Strip(text)[k..]))
  {
  }

  /** The corrected cut is made where the lower-cased message holds the keyword. */
  lemma CutsAt(text: string, i: nat)
    requires !StartsWith(Lower(Strip(text)), "add ")
    requires IndexOf(Lower(Strip(text)), " add ") == Some(i)
    ensures AddRest(text) == Some(Strip(Strip(text)[i + 5..]))
  {
    KeywordInMiddle(Lower(Strip(text)), i);
    AddRestAt(text, i + 5);
  }

  /** The messages of the counterexample are already stripped, and "Math 3" follows the keyword. */
  lemma CounterexampleStripped(u: string)
    requires u == "Please ADD Math 3" || u == "please add Math 3"
    ensures Strip(u) == u && u[11..] == "Math 3"
  {
    StripOfTrimmed(u);
  }

  lemma CapitalMessageLower(u: string)
    requires u == "Please ADD Math 3"
    ensures Lower(u) == "please add math 3"
  {
    LowerIs(u, "please add math 3");
  }

  lemma LowerCaseMessageLower(u: string)
    requires u == "please add Math 3"
    ensures Lower(u) == "please add math 3"
  {
    LowerIs(u, "please add math 3");
  }

  /** In "please add math 3", " add " first occurs at 6, and not at the start. */
  lemma PleaseAddMathKeyword(t: string)
    requires t == "please add math 3" || t == "please add Math 3"
    ensures !StartsWith(t, "add ") && IndexOf(t, " add ") == Some(6)
  {
    forall j: nat | j < 6 ensures !MatchAt(t, " add ", j) {
      if MatchAt(t, " add ", j) {
        MatchedChar(t, " add ", j, 2);
      }
    }
    assert t[6..11] == " add ";
    FirstOccurrence(t, " add ", 6);
    assert t[0] != "add "[0];
  }

  lemma MathThreeParsed(names: seq<string>)
    requires names == ["Math"]
    ensures ParseRest(Join(names) + " " + NatToString(3)) == Some(AddCommand(Join(names), 3.0))
  {
    LetterNames(names, 'u', 'o');
    ParseRestRoundTrip(names, 3);
  }

  lemma MathThreeText(names: seq<string>)
    requires names == ["Math"]
    ensures Join(names) == "Math" && Join(names) + " " + NatToString(3) == "Math 3"
  {
  }

  /** Equal texts after the keyword parse alike. */
  lemma ParseRestSameText(t: string, u: string, c: AddCommand)
    requires t == u && ParseRest(t) == Some(c)
    ensures ParseRest(u) == Some(c)
  {
  }

  lemma MathThreeStripped(rest: string)
    requires rest == "Math 3"
    ensures Strip(rest) == rest
  {
    StripOfTrimmed(rest);
  }

  /** "Math 3" after the keyword. */
  lemma ParseMathThree(rest: string)
    requires rest == "Math 3"
    ensures ParseRest(rest) == Some(AddCommand("Math", 3.0))
  {
    var names := ["Math"];
    MathThreeParsed(names);
    MathThreeText(names);
    ParseRestSameText(Join(names) + " " + NatToString(3), rest, AddCommand("Math", 3.0));
  }

  lemma PleaseAddMathParsed(names: seq<string>)
    requires names == ["Please", "ADD", "Math"]
    ensures ParseRest(Join(names) + " " + NatToString(3)) == Some(AddCommand(Join(names), 3.0))
  {
    LetterNames(names, 'u', 'o');
    ParseRestRoundTrip(names, 3);
  }

  lemma PleaseAddMathJoined(names: seq<string>)
    requires names == ["Please", "ADD", "Math"]
    ensures Join(names) == "Please ADD Math"
    ensures Join(names) + " " + NatToString(3) == "Please ADD Math 3"
  {
    assert Join(names[2..]) == "Math";
    assert Join(names[1..]) == "ADD Math";
  }

  /**
    The two parsers differ only where the keyword's letter case matters: on
    a message that starts with "add ", or whose first " add " is found at
    the same place with and without lower-casing, they agree.
   */
  lemma ParsersAgree(text: string)
    requires StartsWith(Lower(Strip(text)), "add ") || IndexOf(Strip(text), " add ") == IndexOf(Lower(Strip(text)), " add ")
    ensures ParseAddAsWritten(text) == ParseAdd(text)
  {
    var s := Strip(text);
    if StartsWith(Lower(s), "add ") {
      assert KeywordEnd(Lower(s)) == Some(4);
    } else if IndexOf(s, " add ").Some? {
      var i := IndexOf(s, " add ").value;
      AsWrittenCutsAt(text, i);
      CutsAt(text, i);
    }
  }

  /** As written, the capitalised message is taken whole, so its name is the whole text before the hours. */
  lemma ParseCapitalMessageWhole(u: string)
    requires u == "Please ADD Math 3"
    ensures ParseRest(u) == Some(AddCommand("Please ADD Math", 3.0))
  {
    var names := ["Please", "ADD", "Math"];
    PleaseAddMathParsed(names);
    PleaseAddMathJoined(names);
    ParseRestSameText(Join(names) + " " + NatToString(3), u, AddCommand("Please ADD Math", 3.0));
  }

  /** The command of a message, as written, is the command of the text after its keyword. */
  lemma ParseAddAsWrittenOfRest(text: string, rest: string, c: AddCommand)
    requires AddRestAsWritten(text) == Some(rest) && ParseRest(rest) == Some(c)
    ensures ParseAddAsWritten(text) == Some(c)
  {
  }

  /** "Please ADD Math 3" holds no lower-case " add ": it has no 'd'. */
  lemma CapitalMessageLacksKeyword(u: string)
    requires u == "Please ADD Math 3"
    ensures !Contains(u, " add ")
  {
    LacksChar(u, " add ", 2);
  }

  /** As written, "Please ADD Math 3" is taken whole. */
  lemma CapitalMessageAsWritten(upper: string)
    requires upper == "Please ADD Math 3"
    ensures ParseAddAsWritten(upper) == Some(AddCommand("Please ADD Math", 3.0))
  {
    var t := "please add math 3";
    CounterexampleStripped(upper);
    CapitalMessageLower(upper);
    PleaseAddMathKeyword(t);
    CapitalMessageLacksKeyword(upper);
    AsWrittenMissesKeyword(upper);
    ParseCapitalMessageWhole(upper);
    ParseAddAsWrittenOfRest(upper, upper, AddCommand("Please ADD Math", 3.0));
  }

  /** As written, "please add Math 3" is cut after its keyword. */
  lemma LowerCaseMessageAsWritten(lower: string)
    requires lower == "please add Math 3"
    ensures ParseAddAsWritten(lower) == Some(AddCommand("Math", 3.0))
  {
    var t := "please add math 3";
    CounterexampleStripped(lower);
    LowerCaseMessageLower(lower);
    PleaseAddMathKeyword(t);
    PleaseAddMathKeyword(lower);
    AsWrittenCutsAt(lower, 6);
    MathThreeStripped(lower[11..]);
    ParseMathThree(lower[11..]);
    ParseAddAsWrittenOfRest(lower, "Math 3", AddCommand("Math", 3.0));
  }

  /** Corrected, both messages are cut after their keyword. */
  lemma CounterexampleCorrected(u: string)
    requires u == "Please ADD Math 3" || u == "please add Math 3"
    ensures ParseAdd(u) == Some(AddCommand("Math", 3.0))
  {
    var t := "please add math 3";
    CounterexampleStripped(u);
    if u == "Please ADD Math 3" {
      CapitalMessageLower(u);
    } else {
      LowerCaseMessageLower(u);
    }
    PleaseAddMathKeyword(t);
    CutsAt(u, 6);
    MathThreeStripped(u[11..]);
    ParseMathThree(u[11..]);
    ParseAddOfRest(u, "Math 3", AddCommand("Math", 3.0));
  }

  /**
    As written, the " add " case depends on the keyword's letter case: the
    two messages below differ only in case, yet "Please ADD Math 3" keeps its
    whole text as the name while "please add Math 3" gives "Math". The
    corrected parser gives "Math" for both.
   */
  lemma AsWrittenKeywordCaseMatters(upper: string, lower: string)
    requires upper == "Please ADD Math 3" && lower == "please add Math 3"
    ensures Lower(upper) == Lower(lower)
    ensures ParseAddAsWritten(upper) == Some(AddCommand("Please ADD Math", 3.0))
    ensures ParseAddAsWritten(lower) == Some(AddCommand("Math", 3.0))
    ensures ParseAdd(upper) == Some(AddCommand("Math", 3.0))
    ensures ParseAdd(lower) == Some(AddCommand("Math", 3.0))
  {
    CapitalMessageLower(upper);
    LowerCaseMessageLower(lower);
    CapitalMessageAsWritten(upper);
    LowerCaseMessageAsWritten(lower);
    CounterexampleCorrected(upper);
    CounterexampleCorrected(lower);
  }

  // ---------------------------------------------------------------------
  // A worked schedule
  // ---------------------------------------------------------------------

  lemma TwoSubjectsOrdered(a: Subject, b: Subject)
    requires a == Subject("A", 6.0, 1, None) && b == Subject("B", 2.0, 2, None)
    ensures ScheduleOrder([a, b]) == [a, b]
  {
    assert [a, b][1..] == [b];
    assert ScheduleOrder([b]) == [b];
  }

  lemma TwoSubjectsTotal(a: Subject, b: Subject)
    requires a == Subject("A", 6.0, 1, None) && b == Subject("B", 2.0, 2, None)
    ensures TotalWeight([a, b]) == 8.0
  {
    assert [a, b][1..] == [b];
    assert [b][1..] == [];
    assert SumHours([a, b]) == 6.0 + SumHours([b]) == 6.0 + 2.0;
  }

  lemma TwoSubjectsMinutes(a: Subject, b: Subject)
    requires a == Subject("A", 6.0, 1, None) && b == Subject("B", 2.0, 2, None)
    ensures Minutes(a, 8.0, 4.0) == 180 && Minutes(b, 8.0, 4.0) == 60
  {
    assert Share(a, 8.0) == 6.0 / 8.0;
    assert Share(b, 8.0) == 2.0 / 8.0;
  }

  /** Six and two weekly hours share a four-hour day as 180 and 60 minutes, higher priority first. */
  lemma TwoSubjectSchedule(a: Subject, b: Subject)
    requires a == Subject("A", 6.0, 1, None) && b == Subject("B", 2.0, 2, None)
    ensures SuggestDailySchedule([a, b], 4.0) == Schedule(4.0, [Slot("A", 180), Slot("B", 60)])
  {
    TwoSubjectsOrdered(a, b);
    TwoSubjectsTotal(a, b);
    TwoSubjectsMinutes(a, b);
    var slots := Slots([a, b], 8.0, 4.0);
    assert slots[0] == Slot("A", 180) && slots[1] == Slot("B", 60);
    assert slots == [Slot("A", 180), Slot("B", 60)];
  }
}

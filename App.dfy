/**
  app.py's `bot_response`: how the chat bot answers one message against the
  session's study plan. An "add ..." message that parses adds a subject;
  otherwise the stripped, lower-cased message is searched for the keywords
  of each request in turn: listing, schedule, clearing, greeting.
 */
module App {
  import opened Wrappers
  import opened Text
  import opened Numbers
  import opened Planner

  /** What a message asks the bot for. */
  datatype Intent =
    | AddRequest(command: AddCommand)
    | ListRequest
    | ScheduleRequest
    | ClearRequest
    | GreetingRequest
    | Unrecognised

  /** Any of these inside the message asks for the listing. */
  const ListKeywords: seq<string> := ["list", "show", "my subjects", "what are"]

  /** Any of these asks for the daily schedule. */
  const ScheduleKeywords: seq<string> := ["schedule", "daily", "plan for today", "today's plan"]

  /** Any of these asks to clear the plan. */
  const ClearKeywords: seq<string> := ["clear", "reset"]

  /** Any of these is answered with the greeting. */
  const GreetingKeywords: seq<string> := ["hi", "hello", "hey", "help"]

  /** The study hours a day the bot's schedule shares out. */
  const StudyHoursPerDay: real := 4.0

  /** Python's `any(x in text for x in keywords)`. */
  predicate MentionsAny(text: string, keywords: seq<string>) {
    exists i :: 0 <= i < |keywords| && Contains(text, keywords[i])
  }

  /** The source spells the clearing test out as two `in` tests; they are `MentionsAny(text, ClearKeywords)`. */
  lemma ClearKeywordsMentioned(text: string)
    ensures MentionsAny(text, ClearKeywords) <==> Contains(text, "clear") || Contains(text, "reset")
  {
    if Contains(text, "clear") {
      assert Contains(text, ClearKeywords[0]);
    }
    if Contains(text, "reset") {
      assert Contains(text, ClearKeywords[1]);
    }
  }

  /**
    The request a message that is not an add command makes: the first group
    of keywords, in the order listing, schedule, clearing, greeting, that
    the text mentions.
   */
  function KeywordIntent(text: string): (r: Intent)
    ensures !r.AddRequest?
    ensures r == ListRequest <==> MentionsAny(text, ListKeywords)
    ensures r == ScheduleRequest <==> !MentionsAny(text, ListKeywords) && MentionsAny(text, ScheduleKeywords)
    ensures r == ClearRequest <==>
      !MentionsAny(text, ListKeywords) && !MentionsAny(text, ScheduleKeywords) && MentionsAny(text, ClearKeywords)
    ensures r == GreetingRequest <==>
      && !MentionsAny(text, ListKeywords) && !MentionsAny(text, ScheduleKeywords)
      && !MentionsAny(text, ClearKeywords) && MentionsAny(text, GreetingKeywords)
    ensures r == Unrecognised <==>
      && !MentionsAny(text, ListKeywords) && !MentionsAny(text, ScheduleKeywords)
      && !MentionsAny(text, ClearKeywords) && !MentionsAny(text, GreetingKeywords)
  {
    ClearKeywordsMentioned(text);
    if MentionsAny(text, ListKeywords) then ListRequest
    else if MentionsAny(text, ScheduleKeywords) then ScheduleRequest
    else if Contains(text, "clear") || Contains(text, "reset") then ClearRequest
    else if MentionsAny(text, GreetingKeywords) then GreetingRequest
    else Unrecognised
  }

  /**
    The request a message makes: an add command when `parse_add_command`
    finds one, else what the keywords of its stripped, lower-cased text ask for.
   */
  function Classify(userInput: string): (r: Intent)
    ensures r.AddRequest? <==> ParseAddAsWritten(userInput).Some?
    ensures r.AddRequest? ==> r.command == ParseAddAsWritten(userInput).value
    ensures r.AddRequest? ==> r.command.name != [] && r.command.hours != 0.0
    ensures ParseAddAsWritten(userInput).None? ==> r == KeywordIntent(Lower(Strip(userInput)))
  {
    match ParseAddAsWritten(userInput)
    case Some(c) => AddRequest(c)
    case None => KeywordIntent(Lower(Strip(userInput)))
  }

  /** What the bot answers. */
  datatype Reply =
    | Confirmed(confirmation: Confirmation)
    | SubjectsListed(listing: SubjectListing)
    | ScheduleSuggested(schedule: DailySchedule)
    | Greeting
    | DidNotUnderstand

  /** An added subject gets priority 1 and no deadline, the defaults of `add_subject`. */
  function AddedSubject(c: AddCommand): Subject {
    Subject(c.name, c.hours, 1, None)
  }

  /** The plan's subjects once the request is carried out: only adding and clearing change them. */
  function SubjectsAfter(subjects: seq<Subject>, intent: Intent): (r: seq<Subject>)
    ensures intent.AddRequest? ==> |r| == |subjects| + 1 && r[..|subjects|] == subjects
    ensures intent.AddRequest? ==> r[|subjects|] == AddedSubject(intent.command)
    ensures intent == ClearRequest ==> r == []
    ensures !intent.AddRequest? && intent != ClearRequest ==> r == subjects
  {
    match intent
    case AddRequest(c) => subjects + [AddedSubject(c)]
    case ClearRequest => []
    case _ => subjects
  }

  /** The bot's answer to the request, given the subjects before it. */
  function ReplyTo(subjects: seq<Subject>, intent: Intent): (r: Reply)
    ensures r.Confirmed? <==> intent.AddRequest? || intent == ClearRequest
    ensures intent.AddRequest? ==> r.confirmation == SubjectAdded(intent.command.name, intent.command.hours, 1)
    ensures intent == ClearRequest ==> r == Confirmed(AllCleared)
    ensures intent == ListRequest ==> r == SubjectsListed(ListSubjects(subjects))
    ensures intent == ListRequest ==> (r.listing.NoSubjectsYet? <==> subjects == [])
    ensures intent == ScheduleRequest ==> r == ScheduleSuggested(SuggestDailySchedule(subjects, StudyHoursPerDay))
    ensures intent == ScheduleRequest ==> (r.schedule.AddSubjectsFirst? <==> subjects == [])
    ensures intent == ScheduleRequest && subjects != [] ==>
      r.schedule.hoursPerDay == StudyHoursPerDay && |r.schedule.slots| == |subjects|
    ensures r == Greeting <==> intent == GreetingRequest
    ensures r == DidNotUnderstand <==> intent == Unrecognised
  {
    match intent
    case AddRequest(c) => Confirmed(SubjectAdded(c.name, c.hours, 1))
    case ListRequest => SubjectsListed(ListSubjects(subjects))
    case ScheduleRequest => ScheduleSuggested(SuggestDailySchedule(subjects, StudyHoursPerDay))
    case ClearRequest => Confirmed(AllCleared)
    case GreetingRequest => Greeting
    case Unrecognised => DidNotUnderstand
  }

  /** `bot_response`: answers one message and carries out what it asks on the plan. */
  method BotResponse(plan: StudyPlan, userInput: string) returns (reply: Reply)
    modifies plan
    ensures plan.subjects == SubjectsAfter(old(plan.subjects), Classify(userInput))
    ensures reply == ReplyTo(old(plan.subjects), Classify(userInput))
  {
    var text := Lower(Strip(userInput));
    var parsed := ParseAddCommand(userInput);
    if parsed.Some? {
      var c := plan.AddSubject(parsed.value.name, parsed.value.hours, 1, None);
      return Confirmed(c);
    }
    if MentionsAny(text, ListKeywords) {
      return SubjectsListed(ListSubjects(plan.subjects));
    }
    if MentionsAny(text, ScheduleKeywords) {
      return ScheduleSuggested(SuggestDailySchedule(plan.subjects, StudyHoursPerDay));
    }
    if Contains(text, "clear") || Contains(text, "reset") {
      var c := plan.Clear();
      return Confirmed(c);
    }
    if MentionsAny(text, GreetingKeywords) {
      return Greeting;
    }
    return DidNotUnderstand;
  }

  // ---------------------------------------------------------------------
  // What the answers keep
  // ---------------------------------------------------------------------

  /** An added subject shows up as the last line of the next listing, with the parsed name and hours. */
  lemma AddThenList(subjects: seq<Subject>, userInput: string)
    requires Classify(userInput).AddRequest?
    ensures var after := SubjectsAfter(subjects, Classify(userInput));
      var c := ParseAddAsWritten(userInput).value;
      && ListSubjects(after).Listing?
      && ListSubjects(after).lines[|subjects|] == ListedSubject(|subjects| + 1, c.name, c.hours, 1, None)
  {
    var c := ParseAddAsWritten(userInput).value;
    ListingAfterAdd(subjects, AddedSubject(c));
  }

  /** A schedule asked for right after clearing prompts for subjects first. */
  lemma ClearThenSchedule(subjects: seq<Subject>, clear: string, ask: string)
    requires Classify(clear) == ClearRequest && Classify(ask) == ScheduleRequest
    ensures ReplyTo(SubjectsAfter(subjects, Classify(clear)), Classify(ask)) == ScheduleSuggested(AddSubjectsFirst)
  {
  }

  /** The schedule the bot suggests names each subject of the plan exactly once. */
  lemma ScheduleReplyNamesEverySubject(subjects: seq<Subject>, userInput: string)
    requires subjects != [] && Classify(userInput) == ScheduleRequest
    ensures ReplyTo(subjects, Classify(userInput)).schedule.Schedule?
    ensures multiset(SlotNames(ReplyTo(subjects, Classify(userInput)).schedule.slots)) == multiset(Names(subjects))
  {
    EverySubjectScheduledOnce(subjects, StudyHoursPerDay);
  }

  // ---------------------------------------------------------------------
  // Letter case and surrounding whitespace
  // ---------------------------------------------------------------------

  /** Whitespace around a message changes nothing: the bot strips it first. */
  lemma ClassifyIgnoresSurroundingSpace(userInput: string)
    ensures Classify(Strip(userInput)) == Classify(userInput)
  {
    StrippedParsesAlike(userInput);
    StripOfTrimmed(Strip(userInput));
  }

  /**
    Two messages that differ only in letter case, neither of them an add
    command, make the same request: the keywords are looked for in the
    lower-cased text.
   */
  lemma ClassifyIgnoresCase(u: string, v: string)
    requires Lower(u) == Lower(v)
    requires ParseAddAsWritten(u).None? && ParseAddAsWritten(v).None?
    ensures Classify(u) == Classify(v)
  {
    LowerStrip(u);
    LowerStrip(v);
  }

  // ---------------------------------------------------------------------
  // Worked messages
  // ---------------------------------------------------------------------

  /**
    A message already stripped and lower-case that neither starts with
    "add " nor contains " add " is classified by its keywords alone.
   */
  lemma KeywordsDecide(u: string)
    requires Strip(u) == u && Lower(u) == u
    requires !StartsWith(u, "add ") && !Contains(u, " add ")
    ensures Classify(u) == KeywordIntent(u)
  {
    assert AddRestAsWritten(u).None?;
  }

  /** Such a message that mentions a listing keyword asks for the listing. */
  lemma ListedBy(u: string)
    requires Strip(u) == u && Lower(u) == u
    requires !StartsWith(u, "add ") && !Contains(u, " add ")
    requires MentionsAny(u, ListKeywords)
    ensures Classify(u) == ListRequest
  {
    KeywordsDecide(u);
  }

  /** Such a message that mentions only greeting keywords is greeted. */
  lemma GreetedBy(u: string)
    requires Strip(u) == u && Lower(u) == u
    requires !StartsWith(u, "add ") && !Contains(u, " add ")
    requires !MentionsAny(u, ListKeywords) && !MentionsAny(u, ScheduleKeywords) && !MentionsAny(u, ClearKeywords)
    requires MentionsAny(u, GreetingKeywords)
    ensures Classify(u) == GreetingRequest
  {
    KeywordsDecide(u);
  }

  /** A keyword found at a known place is mentioned. */
  lemma MentionsAt(text: string, keywords: seq<string>, i: nat, j: nat)
    requires i < |keywords| && MatchAt(text, keywords[i], j)
    ensures MentionsAny(text, keywords)
  {
    ContainsAt(text, keywords[i], j);
  }

  lemma ClearMySubjectsStripped(u: string)
    requires u == "clear my subjects"
    ensures Strip(u) == u
  {
    StripOfTrimmed(u);
  }

  lemma ClearMySubjectsLowered(u: string)
    requires u == "clear my subjects"
    ensures Lower(u) == u
  {
    LowerOfLower(u);
  }

  lemma ClearMySubjectsNotAdd(u: string)
    requires u == "clear my subjects"
    ensures !StartsWith(u, "add ") && !Contains(u, " add ")
  {
    FirstCharDiffers(u, "add ");
    LacksChar(u, " add ", 2);
  }

  lemma ClearMySubjectsKeyword(u: string)
    requires u == "clear my subjects"
    ensures MatchAt(u, ListKeywords[2], 6)
  {
  }

  /** "clear my subjects" asks for the listing: that test comes before the clearing one. */
  lemma ClearMySubjectsLists(u: string)
    requires u == "clear my subjects"
    ensures Classify(u) == ListRequest
  {
    ClearMySubjectsStripped(u);
    ClearMySubjectsLowered(u);
    ClearMySubjectsNotAdd(u);
    ClearMySubjectsKeyword(u);
    MentionsAt(u, ListKeywords, 2, 6);
    ListedBy(u);
  }

  lemma ShowScheduleStripped(u: string)
    requires u == "show schedule"
    ensures Strip(u) == u
  {
    StripOfTrimmed(u);
  }

  lemma ShowScheduleLowered(u: string)
    requires u == "show schedule"
    ensures Lower(u) == u
  {
    LowerOfLower(u);
  }

  lemma ShowScheduleNotAdd(u: string)
    requires u == "show schedule"
    ensures !StartsWith(u, "add ") && !Contains(u, " add ")
  {
    FirstCharDiffers(u, "add ");
    LacksChar(u, " add ", 1);
  }

  lemma ShowScheduleKeyword(u: string)
    requires u == "show schedule"
    ensures MatchAt(u, ListKeywords[1], 0)
  {
  }

  /** "show schedule" asks for the listing, not the schedule: "show" is a listing keyword. */
  lemma ShowScheduleLists(u: string)
    requires u == "show schedule"
    ensures Classify(u) == ListRequest
  {
    ShowScheduleStripped(u);
    ShowScheduleLowered(u);
    ShowScheduleNotAdd(u);
    ShowScheduleKeyword(u);
    MentionsAt(u, ListKeywords, 1, 0);
    ListedBy(u);
  }

  lemma ThisStripped(u: string)
    requires u == "this"
    ensures Strip(u) == u
  {
    StripOfTrimmed(u);
  }

  lemma ThisLowered(u: string)
    requires u == "this"
    ensures Lower(u) == u
  {
    LowerOfLower(u);
  }

  lemma ThisNotAdd(u: string)
    requires u == "this"
    ensures !StartsWith(u, "add ") && !Contains(u, " add ")
  {
    LacksChar(u, "add ", 1);
    LacksChar(u, " add ", 2);
  }

  lemma ThisKeyword(u: string)
    requires u == "this"
    ensures MatchAt(u, GreetingKeywords[0], 1)
  {
  }

  lemma ThisMentionsNoListing(u: string)
    requires u == "this"
    ensures !MentionsAny(u, ListKeywords)
  {
    LacksChar(u, ListKeywords[0], 0);
    LacksChar(u, ListKeywords[1], 2);
    LacksChar(u, ListKeywords[2], 0);
    LacksChar(u, ListKeywords[3], 0);
  }

  lemma ThisMentionsNoSchedule(u: string)
    requires u == "this"
    ensures !MentionsAny(u, ScheduleKeywords)
  {
    LacksChar(u, ScheduleKeywords[0], 1);
    LacksChar(u, ScheduleKeywords[1], 0);
    LacksChar(u, ScheduleKeywords[2], 0);
    LacksChar(u, ScheduleKeywords[3], 1);
  }

  lemma ThisMentionsNoClearing(u: string)
    requires u == "this"
    ensures !MentionsAny(u, ClearKeywords)
  {
    LacksChar(u, ClearKeywords[0], 0);
    LacksChar(u, ClearKeywords[1], 0);
  }

  /** "this" is greeted: the greeting keyword "hi" is found inside the word. */
  lemma ThisGreets(u: string)
    requires u == "this"
    ensures Classify(u) == GreetingRequest
  {
    ThisStripped(u);
    ThisLowered(u);
    ThisNotAdd(u);
    ThisKeyword(u);
    ThisMentionsNoListing(u);
    ThisMentionsNoSchedule(u);
    ThisMentionsNoClearing(u);
    MentionsAt(u, GreetingKeywords, 0, 1);
    GreetedBy(u);
  }

  lemma AddClearText(names: seq<string>)
    requires names == ["clear"]
    ensures Join(names) == "clear"
    ensures "add " + Join(names) + " " + NatToString(3) == "add clear 3"
  {
  }

  lemma AddClearParsed(names: seq<string>)
    requires names == ["clear"]
    ensures ParseAddAsWritten("add " + Join(names) + " " + NatToString(3)) == Some(AddCommand(Join(names), 3.0))
  {
    LetterNames(names, 'u', 'o');
    LowerCasePrefix("add ");
    ParseAddRoundTrip("add ", names, 3);
  }

  /** "add clear 3" adds a subject named "clear": the add test comes first. */
  lemma AddClearThree(u: string)
    requires u == "add clear 3"
    ensures Classify(u) == AddRequest(AddCommand("clear", 3.0))
  {
    var names := ["clear"];
    AddClearParsed(names);
    AddClearText(names);
    ParseAddSameResult("add " + Join(names) + " " + NatToString(3), u, Some(AddCommand("clear", 3.0)));
  }
}

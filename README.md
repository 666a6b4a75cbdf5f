# Study Planner Bot — a verified model of its core

Study Planner Bot is a chat bot that keeps a study plan. The plan is a list of
subjects, each with weekly hours, a priority and an optional deadline. Users
type messages such as "add Linear Algebra 4", "list", "schedule" or "clear".
The bot adds subjects, lists them, suggests a daily schedule that shares out
four study hours by each subject's weekly hours, listed by priority, or clears
the plan.

This project models the logic behind those answers in Dafny and proves what it
promises:

- `Wrappers.dfy`: `Option`.
- `Text.dfy`: the Python string operations the bot relies on, with their own
  contracts. These are `strip`, `lower`, `startswith`, `in`, `split(sep, 1)`,
  `replace(o, "")`, `split()` and `" ".join`.
- `Numbers.dfy`: the part of Python's `float()` that reads plain decimal
  tokens, and the decimal numerals the round-trip lemmas write.
- `Planner.dfy`: `planner.py`. This covers `Subject`; the `StudyPlan` class
  with `add_subject` and `clear`, which change its subject list in place;
  `list_subjects` and `suggest_daily_schedule` as functions of that list; and
  `parse_add_command`. The parser as the source writes it is the
  specification function `ParseAddAsWritten`. The method `ParseAddCommand`
  runs the same steps, including the token-scanning loop, and is proved to
  return exactly `ParseAddAsWritten`. `ParseAdd` is a corrected parser that
  cuts the message where the keyword was found in the lower-cased text (see
  Findings); the bot does not use it.
- `App.dfy`: `bot_response` in `app.py`. The method `BotResponse` updates the
  plan and answers through `ParseAddCommand`, and is proved to agree with
  `Classify`, `SubjectsAfter` and `ReplyTo`.

Replies are modelled as data, not formatted strings. A listing is a sequence
of numbered lines carrying each subject's fields. A schedule is a sequence of
slots, each a name and its minutes. A confirmation names what was added or
cleared.

Two steps of the code depend on letter case, although the keyword tests
work on the lower-cased message:

- In the " add " branch, the text is cut on the lower-case keyword (see
  Findings).
- The filler removal `replace("subject", "")` only removes lower-case filler
  words. "add subject" is therefore not an add command
  (`Planner.AddSubjectAlone`), while "add Subject" adds a subject named
  "Subject".

`App.ClassifyIgnoresCase` therefore states case-insensitivity only for
messages that are not add commands.

## Model

| member | source | states |
|---|---|---|
| Planner.StudyPlan.constructor | app.py:46-47 | a new session's plan holds no subject |
| Planner.StudyPlan.AddSubject | planner.py:21-25 | the subject with the given name, hours, priority and deadline is appended after the unchanged old subjects; the confirmation carries name, hours and priority |
| Planner.StudyPlan.Clear | planner.py:54-56 | the plan's subject list becomes empty and the reply is the cleared confirmation |
| Planner.ShownDeadline | planner.py:32 | a deadline is shown exactly when it is present and non-empty, and then as given |
| Planner.ListSubjects | planner.py:27-34 | the "no subjects" prompt exactly when the plan is empty; otherwise one line per subject, the i-th numbered i+1 with that subject's name, hours, priority and shown deadline |
| Planner.ListingAfterAdd | planner.py:21-34 | after an add, the listing is the previous lines followed by the new subject numbered one past the old count |
| Planner.Insert | planner.py:43 | inserting one subject adds exactly that subject (multiset) and one to the length |
| Planner.InsertSorted | planner.py:43 | insertion keeps a list sorted by (priority ascending, hours descending) |
| Planner.ScheduleOrder | planner.py:43 | `sorted` by the key gives a sorted permutation of the subjects of the same length |
| Planner.ScheduleOrderStable | planner.py:43 | the sort is stable: subjects with equal keys keep the order in which they were added |
| Planner.TotalWeight | planner.py:39-41 | the total is the sum of the weekly hours when that is positive, else two hours per subject, and is positive for a non-empty plan |
| Planner.Trunc | planner.py:48 | `int()` truncates toward zero: the result lies within one of its argument on the side of zero |
| Planner.Share | planner.py:47 | a subject's share times the total (taken as at least 1) is its hours, or 1 when it has none; the share is positive for non-negative hours and at most 1 when the hours do not exceed the total |
| Planner.Minutes | planner.py:47-50 | a subject's minutes are the floor of its share of the day's minutes, never below 15 |
| Planner.Slots | planner.py:46-51 | one slot per subject in order, each with that subject's name and minutes |
| Planner.SuggestDailySchedule | planner.py:36-52 | the "add subjects first" prompt exactly when the plan is empty; otherwise one slot per subject for the given hours a day, each of at least 15 minutes |
| Planner.EverySubjectScheduledOnce | planner.py:36-52 | the schedule names each subject exactly as often as the plan holds it |
| Planner.ScheduleFollowsOrder | planner.py:43-51 | the i-th slot is the i-th subject of a sorted, stable permutation of the plan, with the minutes its share earns |
| Planner.TwoSubjectSchedule | planner.py:36-52 | subjects A (6 h, priority 1) and B (2 h, priority 2) over 4 hours give A 180 minutes, then B 60 minutes |
| Planner.AfterFirst | planner.py:64 | `split(sep, 1)[-1]` is a suffix of the text, and is all of it when `sep` does not occur |
| Planner.AfterFirstAt | planner.py:64 | when `sep` first occurs at i, `split(sep, 1)[-1]` is what follows that occurrence |
| Planner.AddRestAsWritten | planner.py:61-68 | as written, there is text after the keyword exactly when the stripped, lower-cased message starts with "add " or contains " add "; for a message starting with "add " in any letter case, the text is what follows those four characters (`Planner.AddRestOfPrefixed`) |
| Planner.KeywordEnd | planner.py:62-64 | a keyword end is found exactly for add messages, and it lies within the text |
| Planner.AddRest | planner.py:61-68 | the corrected cut: text after the keyword exists exactly for add messages |
| Planner.RemoveFillers | planner.py:69 | the text without filler words is stripped and no longer than before, and is the text itself when that is stripped and holds no filler word |
| Planner.FillerBeforeWords | planner.py:69 | "subject" or "topic" followed by a space and words without filler words is removed, leaving exactly those words |
| Planner.FillerAlone | planner.py:69 | "subject" or "topic" alone is removed entirely, leaving nothing |
| Planner.FirstNumber | planner.py:75-80 | the first token that reads as a number: every earlier token does not |
| Planner.FirstNumberIs | planner.py:75-80 | any position with a number there and none before it is the first number's position |
| Planner.CommandOf | planner.py:81-86 | the name built from the tokens is non-empty and trimmed, and the hours are never 0 |
| Planner.CommandOfNumberFirst | planner.py:75-85 | when the first token is a number, it is both the name (`parts[0]`, as no name word came before it) and the hours (2.0 when it is 0) |
| Planner.ParseRest | planner.py:69-86 | nothing parses exactly when filler removal leaves nothing; otherwise the name is non-empty and trimmed and the hours non-zero |
| Planner.ParseAddAsWritten | planner.py:59-86 | the source's parser: no command exactly when the message is not an add message or filler removal leaves nothing after its cut; otherwise a non-empty trimmed name and non-zero hours |
| Planner.ParseAdd | planner.py:59-86 | the corrected parser: no command exactly when the message is not an add message or filler removal leaves nothing; otherwise a non-empty trimmed name and non-zero hours |
| Planner.ScanTokens | planner.py:72-80 | the loop collects exactly the tokens before the first number and returns that number, or 0 when there is none |
| Planner.ParseAddCommand | planner.py:59-86 | the method running the source's steps, with its token loop, returns exactly `ParseAddAsWritten` of the message |
| Planner.NumeralHasNoFiller | planner.py:69 | a numeral has no whitespace and contains neither filler word |
| Planner.FillersAbsent | planner.py:69-71 | filler removal leaves a space-joined list of words without filler words unchanged |
| Planner.ParseRestOfWords | planner.py:69-86 | such a joined list parses to the command of its tokens |
| Planner.CommandOfNameThenNumber | planner.py:75-85 | name words followed by a number give the joined words as name and the number as hours (2.0 when it is 0) |
| Planner.CommandOfNameNumberMore | planner.py:75-85 | name words, a number and any further words give the joined name words as name and the number as hours (2.0 when it is 0); what follows the number is ignored |
| Planner.CommandOfNameOnly | planner.py:81-85 | name words without a number give the joined words as name and 2.0 hours |
| Planner.ParseRestRoundTrip | planner.py:69-86 | writing name words and a count, then parsing, gives back the name and the count as hours (2.0 for 0) |
| Planner.ParseRestWithoutHours | planner.py:69-85 | name words alone parse to that name with the default 2.0 hours |
| Planner.AddRestOfPrefixed | planner.py:61-68 | for "add " in any letter case followed by trimmed text, both cuts give back exactly that text |
| Planner.ParseAddRoundTrip | planner.py:59-86 | `parse_add_command("add " + name + " " + n)`, with "add" in any letter case, gives back the name and n hours (2.0 for 0) for any name words and count, for the source's parser and the corrected one alike |
| Planner.ParseAddWithoutHours | planner.py:59-86 | "add " (any letter case) followed by name words alone gives that name with the default 2.0 hours, for both parsers |
| Planner.ParseAddNumberFirst | planner.py:59-86 | "add " + n + " " + further words takes the numeral as the name and n as the hours (2.0 for 0), ignoring the further words |
| Planner.ParseAddFillerFirst | planner.py:59-86 | "add subject " or "add topic " before name words and a count parses, as written, to the name and count: the filler word is dropped |
| Planner.ParseAddFillerOnly | planner.py:59-71 | "add subject" or "add topic" with nothing else is not an add command, as written |
| Planner.ParseAddWithTrailingWords | planner.py:59-86 | "add " + name + " " + n + " " + further words parses, as written, to the name and n hours (2.0 for 0) |
| Planner.AddMathFiveHours | planner.py:60 | the documented example "add Math 5 hours" gives name "Math" and 5 hours |
| Planner.CapitalAddMathFiveHours | planner.py:92 | the greeting's example "Add Math 5 hours", with a capital A, also gives name "Math" and 5 hours |
| Planner.AddPhysics | planner.py:60 | the documented example "add Physics" gives name "Physics" and the default 2.0 hours |
| Planner.CapitalAddPhysics | planner.py:92 | the greeting's example "Add Physics" gives name "Physics" and the default 2.0 hours |
| Planner.AddFiveHours | planner.py:81 | "add 5 hours" gives name "5" and 5 hours, because the first token is already the number |
| Planner.AddSubjectAlone | planner.py:69-71 | "add subject" is not an add command: filler removal leaves nothing |
| Planner.AddSubjectPhysicsThree | planner.py:69-86 | "add subject Physics 3" gives name "Physics" and 3 hours |
| Planner.ParseAddHoursOnly | planner.py:81-85 | "add " followed by only a numeral takes the numeral as the name and also as the hours, for both parsers |
| Planner.AddLinearAlgebra | planner.py:60 | the documented example "add Linear Algebra 4" gives name "Linear Algebra" and 4 hours |
| Planner.AddRestIgnoresCase | planner.py:61-68 | with the corrected cut, messages that differ only in letter case are add messages alike, and their texts after the keyword differ only in case |
| Planner.AsWrittenMissesKeyword | planner.py:63-64 | as written, an infix keyword written with capitals is not found by the case-sensitive split, so the whole stripped text is kept |
| Planner.AsWrittenCutsAt | planner.py:63-64 | as written, the cut is made after the first lower-case " add " of the original text |
| Planner.CutsAt | planner.py:61-64 | corrected, the cut is made after the first " add " of the lower-cased text, in the original text |
| Planner.ParsersAgree | planner.py:61-68 | the source's parser and the corrected one agree on every message that starts with "add ", or whose first " add " lies at the same place with and without lower-casing |
| Planner.StrippedParsesAlike | planner.py:61-64 | stripping a message before parsing it changes nothing |
| Planner.AsWrittenKeywordCaseMatters | planner.py:63-64 | "Please ADD Math 3" and "please add Math 3" differ only in case; as written they give names "Please ADD Math" and "Math"; corrected, both give "Math" with 3 hours |
| Numbers.ParseNumber | planner.py:77 | a token read as a number is non-empty, has no whitespace and starts with a digit, a sign or a point |
| Numbers.UnsignedAccepts | planner.py:77 | a token without sign is read exactly when it is made of digits and points, with at most one point and at least one digit |
| Numbers.ParseNumberAccepts | planner.py:76-80 | a token is a number exactly when, after an optional "+" or "-", it is such a decimal numeral; every other token raises and becomes part of the name |
| Numbers.ParsePlus | planner.py:77 | a "+" sign changes nothing: "+b" reads exactly as b does |
| Numbers.ParseMinus | planner.py:77 | a "-" sign negates: "-b" is a number exactly when b is, with the opposite value |
| Numbers.LonePointNotNumber | planner.py:76-80 | "." alone is not a number, so it stays part of the name |
| Numbers.TwoPointsNotNumber | planner.py:76-80 | "1.2.3" is not a number, so it stays part of the name |
| Numbers.NatRoundTrip | planner.py:77 | reading a written count as a number gives the count back |
| Numbers.ParseNegative | planner.py:77 | "-" followed by digits reads as the negated value of the digits |
| Numbers.ParseDecimal | planner.py:77 | digits, a point and digits, with at least one digit, read as the whole part plus the fraction digits over the matching power of ten |
| Numbers.NotNumber | planner.py:76-80 | a token starting with a character other than a digit, sign or point is not a number |
| Text.Lower | planner.py:61 | `lower()` keeps the length and lower-cases each character in place |
| Text.Strip | planner.py:61 | `strip()` gives trimmed text, no longer than the input, empty exactly when the input is all whitespace, and unchanged on trimmed text |
| Text.StripIsSlice | planner.py:61 | `strip()` keeps a contiguous slice of the input, starting where the leading whitespace ends |
| Text.StripDropsSpace | planner.py:61 | every character `strip()` drops is whitespace |
| Text.IndexOf | planner.py:63-64 | the first occurrence of a pattern, as `in` tests for and `split(sep, 1)` cuts at: the pattern occurs there and nowhere earlier, and there is none exactly when it never occurs |
| Text.RemoveAll | planner.py:69 | `replace(o, "")` never lengthens the text and changes nothing when `o` does not occur |
| Text.RemoveAllPrefix | planner.py:69 | an occurrence of `o` at the start is removed, and removal continues after it |
| Text.RemoveAllKeeps | planner.py:69 | a character where `o` does not start is kept, and removal continues after it |
| Text.Split | planner.py:72 | `split()` gives non-empty tokens without whitespace, the first being the text's first word |
| Text.SplitAfterSpace | planner.py:72 | whitespace before the text, however long, does not change `split()` |
| Text.SplitWordThenSpace | planner.py:72 | a word followed by any run of whitespace is the first token, and splitting goes on after the run, so "Linear   Algebra 4" splits like "Linear Algebra 4" |
| Text.JoinTrimmed | planner.py:81 | `" ".join` of words is non-empty and trimmed, starting with the first word's first character and ending with the last word's last character |
| Text.JoinAppend | planner.py:81 | joining words with one more word appends a space and that word |
| Text.JoinConcat | planner.py:81 | joining two non-empty lists of words is joining their joins with one space |
| Text.SplitJoin | planner.py:72-81 | `split()` undoes `" ".join` on words |
| Text.LowerStrip | planner.py:61 | lower-casing and stripping commute |
| App.MentionsAt | app.py:67 | a keyword occurring anywhere in the text counts as mentioned by `any(x in text ...)` |
| App.KeywordIntent | app.py:66-85 | the first group mentioned wins, in the order listing, schedule, clearing, greeting: each request holds exactly when its group is mentioned and no earlier group is; unrecognised exactly when no group is |
| App.ClearKeywordsMentioned | app.py:75 | the source's two `in` tests for clearing are exactly a mention of a clearing keyword |
| App.Classify | app.py:57-85 | a message is an add request exactly when `parse_add_command` finds a command, and then it carries that command (non-empty name, non-zero hours); otherwise the request is what the keywords of the stripped, lower-cased message ask for |
| App.SubjectsAfter | app.py:59-85 | an add appends the parsed subject with priority 1 and no deadline after the unchanged old ones; clearing empties the plan; every other request leaves it unchanged |
| App.ReplyTo | app.py:59-85 | a confirmation exactly for adding and clearing: the parsed name and hours with priority 1, or the cleared confirmation; for a listing request, `list_subjects` of the current subjects; for a schedule request, `suggest_daily_schedule` of them with 4 hours a day, one slot per subject; each of these a prompt exactly when there are none; the greeting exactly for a greeting request; the help text exactly when nothing was recognised |
| App.BotResponse | app.py:54-85 | the plan afterwards and the reply are those `SubjectsAfter` and `ReplyTo` give for the message's request |
| App.AddThenList | app.py:59-68 | a subject added by a message is the last line of the next listing, with the parsed name and hours and priority 1 |
| App.ClearThenSchedule | app.py:71-76 | a schedule asked for right after clearing is the "add subjects first" prompt |
| App.ScheduleReplyNamesEverySubject | app.py:71-72 | the schedule the bot suggests names each subject of the plan exactly as often as it is held |
| App.ClassifyIgnoresSurroundingSpace | app.py:56 | whitespace around a message does not change the request it makes |
| App.ClassifyIgnoresCase | app.py:56 | two messages, neither an add command, that differ only in letter case make the same request |
| App.KeywordsDecide | app.py:57-85 | a stripped, lower-case message with no add keyword is classified by its keywords alone |
| App.ListedBy | app.py:66-68 | such a message that mentions a listing keyword asks for the listing, whatever else it mentions |
| App.GreetedBy | app.py:79-80 | such a message that mentions a greeting keyword and no listing, schedule or clearing keyword is answered with the greeting |
| App.ClearMySubjectsLists | app.py:67-76 | "clear my subjects" asks for the listing, because that test comes before the clearing one |
| App.ShowScheduleLists | app.py:67-72 | "show schedule" asks for the listing, not the schedule |
| App.ThisGreets | app.py:79-80 | "this" is answered with the greeting, because "hi" occurs inside it |
| App.AddClearThree | app.py:58-64 | "add clear 3" adds a subject named "clear" with 3 hours, because the add test comes first |

## Left out

- storage.py (saving and loading plans) and the Streamlit page around `bot_response` are not part of this model. This includes chat history, rendering and CSS.
- `get_greeting`: its text is not modelled. The greeting reply is the constructor `Greeting`, and the fallback help text is `DidNotUnderstand`.
- Numbers.ParseNumber, Planner.TotalWeight, Planner.Share, Planner.Minutes: hours are exact reals everywhere, not IEEE doubles. This holds for parsing (planner.py:77), the `hours == 0` test (planner.py:84), the sum and its `total <= 0` test (planner.py:39-40), the sort key (planner.py:43) and the product `daily_hours * 60 * ratio` (planner.py:47-48). Rounding, overflow and underflow are therefore not captured, and each can change a result. Overflow: `float()` turns "1" followed by 400 zeros into `inf`; the schedule's total is then `inf` and its ratio `inf / inf` is `nan`, so `int(nan)` raises `ValueError` and `bot_response` fails, where the model returns finite minutes. Rounding in the sum: hours 0.1, 0.2 and -0.3 sum to about 5.55e-17 as doubles, which is positive, so Python divides by 1 and gives 48, 24 and 15 minutes; the exact sum is 0, so the model falls back to 2 hours each and gives 15, 15 and 15. Underflow: `float()` reads "0." followed by 400 zeros and a "1" as 0.0, which the `hours == 0` test turns into 2.0 hours; the model keeps 10^-401. Two numerals that round to the same double tie in the sort as written but not in the model.
- Reply strings: markdown formatting and Python's float-to-text conversion (`{hours}`, `{daily_hours}`) are not modelled. Replies carry the values they would print.
- Numbers.ParseNumber: only plain decimals are read, with an optional sign and at most one decimal point (for example "5", "-2", "3.5", ".5"). Python's `float()` also accepts "inf", "nan", exponents, underscores and surrounding whitespace. Tokens like these are not numbers in the model. Nor are numerals written with non-ASCII Unicode digits, such as "٥", which `float()` accepts.
- Text.Lower: `lower()` is modelled on the ASCII letters only; Unicode case mapping is not modelled. (`strip()` and `split()` use Python's full `isspace` set.)
- Planner.CommandOf: the source's `if not name: return None` (planner.py:82-83) cannot be reached once filler removal has left text. The contract proves the name is never empty, and there is no branch for it.
- Planner.StudyPlan.AddSubject: Python's default arguments are not modelled. `bot_response` passes only name and hours, so `add_subject`'s defaults apply; the model's `BotResponse` passes those defaults, priority 1 and no deadline, explicitly.
- App.ClassifyIgnoresCase: stated only for messages that are not add commands. Filler removal is case-sensitive in the source, so add commands do not ignore case.

## Findings

| source | as written | input that shows it | evidently intended | confidence | as-written member | corrected member |
|---|---|---|---|---|---|---|
| planner.py:63-64 | the " add " keyword is found in the lower-cased text, but the cut is made by splitting the original text on the lower-case " add ", so a keyword written with a capital is not found by the split | "Please ADD Math 3" gives the name "Please ADD Math", while "please add Math 3" gives "Math" | cut at the position where the keyword was found in the lower-cased text, so both give "Math" with 3 hours | medium, not executed | Planner.AsWrittenKeywordCaseMatters | Planner.AddRestIgnoresCase |

/**
 * The intake page (packages/web/app/page.tsx): how a one-sentence question
 * becomes the structured outputs (topic, focus, signal chips and constant
 * prompts) and the three scenario cards, and what the form submits.
 */
module Intake {
  import opened Strings
  import Utils

  const StarterQuestion: string := "What happens to local newsrooms " + "if AI writes most community updates?"

  predicate IsAsciiAlnum(c: char)
  {
    ('a' <= c <= 'z') || ('A' <= c <= 'Z') || ('0' <= c <= '9')
  }

  /** `replace(/[^a-zA-Z0-9\s]/g, '')`: keeps ASCII letters, digits and
      white space, in order. */
  function Clean(s: string): (r: string)
    ensures |r| <= |s|
    ensures forall i :: 0 <= i < |r| ==> IsAsciiAlnum(r[i]) || IsSpace(r[i])
  {
    if s == [] then []
    else (if IsAsciiAlnum(s[0]) || IsSpace(s[0]) then [s[0]] else []) + Clean(s[1..])
  }

  /** One character is kept exactly when it is an ASCII letter or digit or
      white space. */
  lemma CleanChar(c: char)
    ensures Clean([c]) == if IsAsciiAlnum(c) || IsSpace(c) then [c] else []
  {
    assert [c][1..] == [];
  }

  /** Cleaning works character by character: it distributes over
      concatenation, so with `CleanChar` every kept character survives in
      order and nothing else does. */
  lemma {:induction false} CleanAppend(a: string, b: string)
    ensures Clean(a + b) == Clean(a) + Clean(b)
  {
    if a == [] {
      assert a + b == b;
    } else {
      assert (a + b)[1..] == a[1..] + b;
      CleanAppend(a[1..], b);
    }
  }

  predicate SpaceFree(w: string)
  {
    forall j :: 0 <= j < |w| ==> !IsSpace(w[j])
  }

  /** The run of non-space characters `s` starts with. */
  function LeadingWord(s: string): (w: string)
    ensures |w| <= |s| && w == s[..|w|]
    ensures SpaceFree(w)
    ensures |w| < |s| ==> IsSpace(s[|w|])
    ensures s != [] && !IsSpace(s[0]) ==> w != []
  {
    if s == [] || IsSpace(s[0]) then [] else [s[0]] + LeadingWord(s[1..])
  }

  /** `split(/\s+/).filter(Boolean)`: the maximal runs of non-space
      characters, in order. */
  function Words(s: string): (ws: seq<string>)
    ensures forall i :: 0 <= i < |ws| ==> ws[i] != "" && SpaceFree(ws[i])
    decreases |s|
  {
    if s == [] then []
    else if IsSpace(s[0]) then Words(s[1..])
    else
      var w := LeadingWord(s);
      [w] + Words(s[|w|..])
  }

  /** The non-space characters of `s`, in order. */
  function NonSpace(s: string): string
  {
    if s == [] then [] else (if IsSpace(s[0]) then [] else [s[0]]) + NonSpace(s[1..])
  }

  function Concat(ws: seq<string>): string
  {
    if ws == [] then [] else ws[0] + Concat(ws[1..])
  }

  lemma {:induction false} NonSpaceAppend(a: string, b: string)
    ensures NonSpace(a + b) == NonSpace(a) + NonSpace(b)
  {
    if a == [] {
      assert a + b == b;
    } else {
      assert (a + b)[1..] == a[1..] + b;
      NonSpaceAppend(a[1..], b);
    }
  }

  lemma {:induction false} NonSpaceOfSpaceFree(w: string)
    requires SpaceFree(w)
    ensures NonSpace(w) == w
  {
    if w != [] {
      NonSpaceOfSpaceFree(w[1..]);
    }
  }

  /** The words hold every non-space character and nothing else: gluing them
      together gives the input with its white space removed. */
  lemma {:induction false} WordsConcat(s: string)
    ensures Concat(Words(s)) == NonSpace(s)
    decreases |s|
  {
    if s != [] {
      if IsSpace(s[0]) {
        WordsConcat(s[1..]);
      } else {
        var w := LeadingWord(s);
        assert s == w + s[|w|..];
        NonSpaceAppend(w, s[|w|..]);
        NonSpaceOfSpaceFree(w);
        WordsConcat(s[|w|..]);
        assert ([w] + Words(s[|w|..]))[1..] == Words(s[|w|..]);
      }
    }
  }

  /** There are no words exactly when the input is all white space. */
  lemma {:induction false} WordsEmptyIff(s: string)
    ensures Words(s) == [] <==> AllSpace(s)
    decreases |s|
  {
    if s != [] && IsSpace(s[0]) {
      WordsEmptyIff(s[1..]);
      if AllSpace(s[1..]) {
        forall i | 0 <= i < |s| ensures IsSpace(s[i]) {
          if i > 0 {
            assert s[i] == s[1..][i - 1];
          }
        }
      }
    }
  }

  /** Cleaning leaves nothing but white space exactly when the input holds
      no ASCII letter or digit. */
  lemma {:induction false} CleanAllSpaceIff(s: string)
    ensures AllSpace(Clean(s)) <==> forall i :: 0 <= i < |s| ==> !IsAsciiAlnum(s[i])
  {
    if s != [] {
      CleanAllSpaceIff(s[1..]);
      var head := if IsAsciiAlnum(s[0]) || IsSpace(s[0]) then [s[0]] else [];
      assert Clean(s) == head + Clean(s[1..]);
      if AllSpace(Clean(s)) {
        forall i | 0 <= i < |Clean(s[1..])| ensures IsSpace(Clean(s[1..])[i]) {
          assert Clean(s[1..])[i] == Clean(s)[|head| + i];
        }
        assert |head| > 0 ==> Clean(s)[0] == s[0];
        forall i | 0 < i < |s| ensures !IsAsciiAlnum(s[i]) {
          assert s[i] == s[1..][i - 1];
        }
      }
      if forall i :: 0 <= i < |s| ==> !IsAsciiAlnum(s[i]) {
        forall i | 0 <= i < |s[1..]| ensures !IsAsciiAlnum(s[1..][i]) {
          assert s[1..][i] == s[i + 1];
        }
        forall i | 0 <= i < |Clean(s)| ensures IsSpace(Clean(s)[i]) {
          if i >= |head| {
            assert Clean(s)[i] == Clean(s[1..])[i - |head|];
          } else {
            assert Clean(s)[i] == s[0];
          }
        }
      }
    }
  }

  /** Every word of a cleaned string is made of ASCII letters and digits. */
  lemma {:induction false} CleanWordsAlnum(s: string)
    ensures var ws := Words(Clean(s));
      forall i, j :: 0 <= i < |ws| && 0 <= j < |ws[i]| ==> IsAsciiAlnum(ws[i][j])
  {
    WordsOfLetters(Clean(s));
  }

  lemma {:induction false} WordsOfLetters(s: string)
    requires forall i :: 0 <= i < |s| ==> IsAsciiAlnum(s[i]) || IsSpace(s[i])
    ensures var ws := Words(s);
      forall i, j :: 0 <= i < |ws| && 0 <= j < |ws[i]| ==> IsAsciiAlnum(ws[i][j])
    decreases |s|
  {
    if s != [] {
      if IsSpace(s[0]) {
        WordsOfLetters(s[1..]);
        assert Words(s) == Words(s[1..]);
      } else {
        var w := LeadingWord(s);
        WordsOfLetters(s[|w|..]);
        var ws := Words(s);
        forall i, j | 0 <= i < |ws| && 0 <= j < |ws[i]| ensures IsAsciiAlnum(ws[i][j]) {
          if i == 0 {
            assert ws[0][j] == s[j];
          } else {
            assert ws[i] == Words(s[|w|..])[i - 1];
          }
        }
      }
    }
  }

  /** A space-free word followed by a space and more text splits off as the
      first word. */
  lemma {:induction false} LeadingWordOfJoin(w: string, rest: string)
    requires SpaceFree(w)
    requires rest != [] ==> IsSpace(rest[0])
    ensures LeadingWord(w + rest) == w
  {
    if w == [] {
      assert w + rest == rest;
    } else {
      assert (w + rest)[1..] == w[1..] + rest;
      LeadingWordOfJoin(w[1..], rest);
    }
  }

  /** A word, a space and more text split into that word and the words of
      the rest. */
  lemma WordsCons(w: string, rest: string)
    requires w != "" && SpaceFree(w)
    ensures Words(w + " " + rest) == [w] + Words(rest)
  {
    var s := w + " " + rest;
    assert s == w + (" " + rest);
    LeadingWordOfJoin(w, " " + rest);
    assert s[|w|..] == " " + rest;
    assert (" " + rest)[1..] == rest;
  }

  /** Splitting words joined by single spaces gives the words back. */
  lemma {:induction false} WordsOfJoin(ws: seq<string>)
    requires forall i :: 0 <= i < |ws| ==> ws[i] != "" && SpaceFree(ws[i])
    ensures Words(Utils.JoinSpaced(ws)) == ws
  {
    if |ws| == 1 {
      LeadingWordOfJoin(ws[0], "");
      assert ws[0] + "" == ws[0];
      assert ws[0][|ws[0]|..] == [];
    } else if |ws| > 1 {
      WordsCons(ws[0], Utils.JoinSpaced(ws[1..]));
      WordsOfJoin(ws[1..]);
      assert ws == [ws[0]] + ws[1..];
    }
  }

  /** A non-empty run of non-space characters is one word. */
  lemma WordsOfWord(w: string)
    requires w != "" && SpaceFree(w)
    ensures Words(w) == [w]
  {
    LeadingWordOfJoin(w, "");
    assert w + "" == w;
    assert w[|w|..] == [];
  }

  /** The word before a white-space character ends there. */
  lemma {:induction false} LeadingWordBeforeSpace(a: string, t: string)
    requires t != [] && IsSpace(t[0])
    ensures LeadingWord(a + t) == LeadingWord(a)
  {
    if a == [] {
      assert a + t == t;
    } else if !IsSpace(a[0]) {
      assert (a + t)[1..] == a[1..] + t;
      LeadingWordBeforeSpace(a[1..], t);
    }
  }

  /** Every white-space character separates words: the words of `a`, a
      white-space character and `b` are the words of `a` followed by the
      words of `b`. With `WordsOfWord` this pins `Words` down to the maximal
      runs of non-space characters, whatever white space separates them. */
  lemma {:induction false} WordsAtSpace(a: string, c: char, b: string)
    requires IsSpace(c)
    ensures Words(a + [c] + b) == Words(a) + Words(b)
    decreases |a|
  {
    var s := a + [c] + b;
    if a == [] {
      assert s == [c] + b && s[1..] == b;
    } else if IsSpace(a[0]) {
      assert s[1..] == a[1..] + [c] + b;
      WordsAtSpace(a[1..], c, b);
    } else {
      var w := LeadingWord(a);
      WordsAtSpace(a[|w|..], c, b);
      WordsAfterWord(a, c, b);
    }
  }

  /** The first word of `a + [c] + b` is the first word of `a`, and the
      rest is split where `a`'s rest is. */
  lemma WordsAfterWord(a: string, c: char, b: string)
    requires IsSpace(c) && a != [] && !IsSpace(a[0])
    ensures var w := LeadingWord(a);
      && Words(a + [c] + b) == [w] + Words(a[|w|..] + [c] + b)
      && Words(a) == [w] + Words(a[|w|..])
  {
    var s := a + [c] + b;
    var w := LeadingWord(a);
    assert s == a + ([c] + b);
    LeadingWordBeforeSpace(a, [c] + b);
    assert s[|w|..] == a[|w|..] + [c] + b;
  }

  /** A run of two spaces, as `Clean` leaves where it drops a symbol
      between two spaces, still separates exactly two words. */
  lemma DoubleGap(a: string, b: string)
    requires a != "" && SpaceFree(a) && b != "" && SpaceFree(b)
    ensures Words(a + "  " + b) == [a, b]
  {
    assert a + "  " + b == a + [' '] + ([] + [' '] + b);
    WordsAtSpace(a, ' ', [] + [' '] + b);
    WordsAtSpace([], ' ', b);
    WordsOfWord(a);
    WordsOfWord(b);
  }

  datatype IntakeSignal = IntakeSignal(id: string, caption: string)

  datatype StructuredOutputs = StructuredOutputs(
    topic: string,
    focus: string,
    horizon: string,
    actors: seq<string>,
    disambiguation: seq<string>,
    signals: seq<IntakeSignal>)

  /** `statement.trim() || fallback`: the trimmed statement, or the
      fallback when nothing but white space was given. */
  function TrimOr(statement: string, fallback: string): (t: string)
    requires fallback != ""
    ensures t != ""
    ensures Trim(statement) != "" ==> t == Trim(statement)
    ensures Trim(statement) == "" ==> t == fallback
  {
    var trimmed := Trim(statement);
    if trimmed != "" then trimmed else fallback
  }

  /** The topic of `deriveStructuredOutputs`. */
  function Topic(statement: string): string
  {
    TrimOr(statement, "your focus area")
  }

  function Min(a: int, b: int): int
  {
    if a < b then a else b
  }

  /** `slice(0, n)`: the first `n` elements, or all of them when there are
      fewer. */
  function Take(ws: seq<string>, n: nat): (r: seq<string>)
    ensures |r| == Min(n, |ws|) && r == ws[..|r|]
  {
    if |ws| <= n then ws else ws[..n]
  }

  /** Where `slice(-5)` starts. */
  function WindowStart(n: nat): (k: nat)
    ensures k <= n && n - k == Min(5, n)
  {
    if n >= 5 then n - 5 else 0
  }

  /** The signal chips: the last five words, each tagged with its position in
      that window, cut to the first four. */
  function SignalChips(words: seq<string>): (r: seq<IntakeSignal>)
    ensures var k := WindowStart(|words|);
      && |r| == Min(4, |words| - k)
      && (forall i :: 0 <= i < |r| ==> r[i].caption == words[k + i] && r[i].id == words[k + i] + "-" + Decimal(i))
      && (|words| >= 5 ==> k + |r| < |words|)
  {
    var window := words[WindowStart(|words|)..];
    var tagged := seq(|window|, i requires 0 <= i < |window| => IntakeSignal(window[i] + "-" + Decimal(i), window[i]));
    tagged[..Min(4, |tagged|)]
  }

  const FixedHorizon: string := "18-36 months"
  const Actors: seq<string> := ["Policy makers", "Market leaders", "Communities", "Emerging entrants"]
  const Disambiguation: seq<string> := [
    "Time horizon you care most about",
    "Geography or market segment",
    "Metrics that define success or failure"
  ]

  /** `deriveStructuredOutputs` (packages/web/app/page.tsx:25-50). */
  function DeriveStructuredOutputs(statement: string): (r: StructuredOutputs)
    ensures r.topic == Topic(statement)
    ensures var words := Words(Clean(r.topic));
      && r.focus == Utils.JoinSpaced(Take(words, 6))
      && r.signals == SignalChips(words)
    ensures r.horizon == FixedHorizon && |r.actors| == 4 && |r.disambiguation| == 3
  {
    var topic := Topic(statement);
    var words := Words(Clean(topic));
    StructuredOutputs(
      topic,
      Utils.JoinSpaced(Take(words, 6)),
      FixedHorizon, Actors, Disambiguation, SignalChips(words))
  }

  /** Joining the first six words and splitting the result gives them back. */
  lemma FocusOfWords(words: seq<string>)
    requires forall i :: 0 <= i < |words| ==> words[i] != "" && SpaceFree(words[i])
    ensures Words(Utils.JoinSpaced(Take(words, 6))) == Take(words, 6)
  {
    var head := Take(words, 6);
    forall i | 0 <= i < |head| ensures head[i] != "" && SpaceFree(head[i]) {
      assert head[i] == words[i];
    }
    WordsOfJoin(head);
  }

  /** The focus splits back into the topic's first six words (fewer when the
      topic has fewer). */
  lemma FocusWords(statement: string)
    ensures var r := DeriveStructuredOutputs(statement);
      Words(r.focus) == Take(Words(Clean(r.topic)), 6)
  {
    FocusOfWords(Words(Clean(Topic(statement))));
  }

  /** A topic without ASCII letters or digits has an empty focus and no
      signal chips, and only such a topic. */
  lemma NoWordsIff(statement: string)
    ensures var r := DeriveStructuredOutputs(statement);
      (r.focus == "" && r.signals == []) <==>
      forall i :: 0 <= i < |r.topic| ==> !IsAsciiAlnum(r.topic[i])
  {
    NoWordsOfTopic(Topic(statement));
  }

  lemma NoWordsOfTopic(topic: string)
    ensures var words := Words(Clean(topic));
      (Utils.JoinSpaced(Take(words, 6)) == "" && SignalChips(words) == []) <==>
      forall i :: 0 <= i < |topic| ==> !IsAsciiAlnum(topic[i])
  {
    var words := Words(Clean(topic));
    CleanAllSpaceIff(topic);
    WordsEmptyIff(Clean(topic));
    if words != [] {
      var head := Take(words, 6);
      Utils.JoinEmptyIff(head);
      assert head != [];
    }
  }

  datatype ScenarioTemplate = ScenarioTemplate(id: string, title: string, color: string)
  datatype Scenario = Scenario(id: string, title: string, color: string, outcome: string, moves: seq<string>)

  const ScenarioTemplates: seq<ScenarioTemplate> := [
    ScenarioTemplate("A", "Baseline momentum", "#38bdf8"),
    ScenarioTemplate("B", "Acceleration", "#a855f7"),
    ScenarioTemplate("C", "Headwinds", "#f97316")
  ]

  /** The base of `buildScenarios`' outcomes. */
  function ScenarioBase(statement: string): string
  {
    TrimOr(statement, "your chosen topic")
  }

  /** What follows the topic in the outcome of the scenario at `idx`. */
  function OutcomeTail(idx: nat): string
  {
    if idx == 0 then " continues on its current trajectory with steady but uneven adoption."
    else if idx == 1 then " accelerates as enablers line up, creating outsized momentum and new power players."
    else " faces friction from regulation, economics, or public pushback, slowing meaningful change."
  }

  const ScenarioMoves: seq<string> := [
    "Frame the decision points and owners",
    "Identify the few signals that flip the scenario",
    "List moves to double down or hedge"
  ]

  /** `buildScenarios` (packages/web/app/page.tsx:52-69). */
  function BuildScenarios(statement: string): (r: seq<Scenario>)
    ensures |r| == 3
    ensures forall i :: 0 <= i < 3 ==>
      && r[i].id == ScenarioTemplates[i].id && r[i].title == ScenarioTemplates[i].title
      && r[i].color == ScenarioTemplates[i].color
      && |r[i].moves| == 3 && ScenarioBase(statement) <= r[i].outcome
  {
    var base := ScenarioBase(statement);
    seq(3, idx requires 0 <= idx < 3 =>
      var t := ScenarioTemplates[idx];
      Scenario(t.id, t.title, t.color, base + OutcomeTail(idx), ScenarioMoves))
  }

  /** The cards come out as A, B, C, in that order. */
  lemma ScenarioIds(statement: string)
    ensures var r := BuildScenarios(statement);
      r[0].id == "A" && r[1].id == "B" && r[2].id == "C"
  {
  }

  /** What `handleSubmit` stores (packages/web/app/page.tsx:78-81): the
      trimmed question, or the starter question when it is blank. */
  function Submitted(question: string): (r: string)
    ensures r != ""
    ensures Trim(question) != "" ==> r == Trim(question)
    ensures Trim(question) == "" ==> r == StarterQuestion
  {
    var trimmed := Trim(question);
    if trimmed != "" then trimmed else StarterQuestion
  }

  /** The submitted value is already trimmed. */
  lemma SubmittedTrimmed(question: string)
    ensures Trim(Submitted(question)) == Submitted(question)
  {
    if Trim(question) != "" {
      TrimIdempotent(question);
    } else {
      TrimNoop(StarterQuestion);
    }
  }

  /** A non-blank trimmed statement is its own topic and its own scenario
      base. */
  lemma TrimmedIsBase(x: string)
    requires x != "" && Trim(x) == x
    ensures Topic(x) == x && ScenarioBase(x) == x
  {
  }

  /** The page derives its topic from exactly the submitted text. */
  lemma SubmittedIsTopic(question: string)
    ensures DeriveStructuredOutputs(Submitted(question)).topic == Submitted(question)
  {
    SubmittedTrimmed(question);
    TrimmedIsBase(Submitted(question));
  }

  /** Every scenario outcome starts with exactly the submitted text. */
  lemma SubmittedOutcomes(question: string)
    ensures forall i :: 0 <= i < 3 ==> Submitted(question) <= BuildScenarios(Submitted(question))[i].outcome
  {
    SubmittedBase(question);
    OutcomesStartWithBase(Submitted(question));
  }

  lemma SubmittedBase(question: string)
    ensures ScenarioBase(Submitted(question)) == Submitted(question)
  {
    SubmittedTrimmed(question);
    TrimmedIsBase(Submitted(question));
  }

  lemma OutcomesStartWithBase(x: string)
    requires ScenarioBase(x) == x
    ensures forall i :: 0 <= i < 3 ==> x <= BuildScenarios(x)[i].outcome
  {
  }
}

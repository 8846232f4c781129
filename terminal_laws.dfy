/** What the terminal promises over one input and over a whole session of
    inputs: the history's shape, the log's growth, the registry's names and
    the effect of the section commands. */
module TerminalLaws {
  import opened JsText
  import opened Sections
  import opened Terminal

  // ---------------------------------------------------------------------------
  // The command history
  // ---------------------------------------------------------------------------

  /** A non-empty text with no whitespace at either end, as `trim` leaves it. */
  predicate Trimmed(x: string) {
    x != [] && !IsWhitespace(x[0]) && !IsWhitespace(x[|x| - 1])
  }

  /** Every entry is trimmed and non-empty, and appears once. */
  predicate WellFormedHistory(h: seq<string>) {
    && (forall i :: 0 <= i < |h| ==> Trimmed(h[i]))
    && (forall i, j :: 0 <= i < j < |h| ==> h[i] != h[j])
  }

  /** The trimmed inputs of a session, in order. */
  function TrimmedInputs(inputs: seq<string>): (r: seq<string>)
    ensures |r| == |inputs|
  {
    seq(|inputs|, i requires 0 <= i < |inputs| => Trim(inputs[i]))
  }

  lemma TrimmedInputsSnoc(inputs: seq<string>)
    requires inputs != []
    ensures TrimmedInputs(inputs) == TrimmedInputs(inputs[..|inputs| - 1]) + [Trim(inputs[|inputs| - 1])]
  {
    var front := inputs[..|inputs| - 1];
    forall i | 0 <= i < |front|
      ensures TrimmedInputs(inputs)[i] == TrimmedInputs(front)[i]
    {
      assert front[i] == inputs[i];
    }
  }

  /** The history after a session of raw inputs, starting empty. */
  function HistoryOf(inputs: seq<string>): seq<string> {
    if inputs == [] then []
    else HistoryAfter(HistoryOf(inputs[..|inputs| - 1]), Trim(inputs[|inputs| - 1]))
  }

  /** One trimmed input keeps the history well formed and only ever appends
      to it. */
  lemma HistoryStepPreserves(h: seq<string>, t: string)
    requires WellFormedHistory(h)
    requires t == [] || Trimmed(t)
    ensures WellFormedHistory(HistoryAfter(h, t))
    ensures var h' := HistoryAfter(h, t); |h| <= |h'| <= |h| + 1 && h'[..|h|] == h
  {
    if t != [] && t !in h {
      var h' := h + [t];
      forall i, j | 0 <= i < j < |h'|
        ensures h'[i] != h'[j]
      {
        if j == |h| { assert h'[i] in h; }
      }
    }
  }

  /** Over a whole session the history is well formed and holds exactly the
      non-empty trimmed inputs. */
  lemma {:induction false} HistoryOfSession(inputs: seq<string>)
    ensures WellFormedHistory(HistoryOf(inputs))
    ensures forall x :: x in HistoryOf(inputs) <==> x != [] && x in TrimmedInputs(inputs)
  {
    if inputs != [] {
      var front := inputs[..|inputs| - 1];
      var t := Trim(inputs[|inputs| - 1]);
      HistoryOfSession(front);
      HistoryStepPreserves(HistoryOf(front), t);
      TrimmedInputsSnoc(inputs);
      var before := HistoryOf(front);
      var seen := TrimmedInputs(front);
      assert HistoryOf(inputs) == HistoryAfter(before, t);
      forall x
        ensures x in HistoryAfter(before, t) <==> x != [] && x in seen + [t]
      {
        assert x in seen + [t] <==> x in seen || x == t;
      }
    }
  }

  // ---------------------------------------------------------------------------
  // The line log
  // ---------------------------------------------------------------------------

  /** Among newly added lines, exactly the command lines carry a timestamp. */
  predicate StampedIffCommand(ls: seq<Line>) {
    forall i :: 0 <= i < |ls| ==> (ls[i].timestamp.Some? <==> ls[i].kind == CommandLine)
  }

  function ErrorCount(ls: seq<Line>): (n: nat)
    ensures n <= |ls|
  {
    if ls == [] then 0
    else ErrorCount(ls[..|ls| - 1]) + (if ls[|ls| - 1].kind == ErrorLine then 1 else 0)
  }

  lemma {:induction false} ErrorCountAppend(a: seq<Line>, b: seq<Line>)
    ensures ErrorCount(a + b) == ErrorCount(a) + ErrorCount(b)
  {
    if b != [] {
      assert (a + b)[..|a + b| - 1] == a + b[..|b| - 1];
      ErrorCountAppend(a, b[..|b| - 1]);
    } else {
      assert a + b == a;
    }
  }

  lemma {:induction false} ErrorCountOutputs(texts: seq<string>)
    ensures ErrorCount(OutputLines(texts)) == 0
  {
    if texts != [] {
      var front := texts[..|texts| - 1];
      assert OutputLines(texts)[..|texts| - 1] == OutputLines(front);
      ErrorCountOutputs(front);
    }
  }

  /** Unless the command is `clear`, an input only appends: the old log is a
      prefix, the next line echoes the trimmed input behind the prompt with a
      timestamp, exactly the command line is stamped among the new lines, and
      one error line is added exactly when the first word is unregistered. */
  lemma InputAppends(lines: seq<Line>, t: string, h: seq<string>, env: Env)
    requires ValidEnv(env)
    requires DispatchOf(t) != Run(Clear)
    ensures var ls := LinesAfter(lines, t, h, env);
      && |ls| > |lines|
      && ls[..|lines|] == lines
      && ls[|lines|] == Line(CommandLine, Prompt + t, Some(env.time))
      && StampedIffCommand(ls[|lines|..])
      && ErrorCount(ls) == ErrorCount(lines) + (if DispatchOf(t).Unknown? then 1 else 0)
  {
    var e := EchoLine(t, env.time);
    match DispatchOf(t)
    case Blank =>
      assert LinesAfter(lines, t, h, env) == lines + [e] + [];
      EchoThen(lines, e, []);
    case Unknown(token) =>
      var err := [Line(ErrorLine, ErrorText(token), None)];
      assert LinesAfter(lines, t, h, env) == lines + [e] + err;
      assert ErrorCount(err) == ErrorCount([]) + 1;
      EchoThen(lines, e, err);
    case Run(c) =>
      var added := OutputLines(Outputs(c, h, env));
      assert LinesAfter(lines, t, h, env) == lines + [e] + added;
      ErrorCountOutputs(Outputs(c, h, env));
      EchoThen(lines, e, added);
  }

  /** A stamped command line followed by unstamped non-command lines: the old
      log stays a prefix and the errors add up. */
  lemma EchoThen(lines: seq<Line>, e: Line, added: seq<Line>)
    requires e.kind == CommandLine && e.timestamp.Some?
    requires forall i :: 0 <= i < |added| ==> added[i].timestamp.None? && added[i].kind != CommandLine
    ensures var ls := lines + [e] + added;
      && |ls| > |lines|
      && ls[..|lines|] == lines
      && ls[|lines|] == e
      && StampedIffCommand(ls[|lines|..])
      && ErrorCount(ls) == ErrorCount(lines) + ErrorCount(added)
  {
    var ls := lines + [e] + added;
    assert ls[|lines|..] == [e] + added;
    ErrorCountAppend(lines, [e]);
    assert ErrorCount([e]) == ErrorCount([]) + 0;
    ErrorCountAppend(lines + [e], added);
  }

  /** An input of whitespace only echoes the bare prompt and changes neither
      the history nor the visible sections. */
  lemma BlankInputEchoesOnly(lines: seq<Line>, input: string, h: seq<string>, visible: set<string>, env: Env)
    requires ValidEnv(env)
    requires forall k :: 0 <= k < |input| ==> IsWhitespace(input[k])
    ensures LinesAfter(lines, Trim(input), h, env) == lines + [Line(CommandLine, Prompt, Some(env.time))]
    ensures HistoryAfter(h, Trim(input)) == h
    ensures VisibleAfter(visible, Trim(input)) == visible
  {
    TrimEmptyIff(input);
    assert Prompt + [] == Prompt;
  }

  /** `clear` (with or without arguments) empties the log. */
  lemma ClearEmptiesLog(lines: seq<Line>, rest: string, h: seq<string>, env: Env)
    requires ValidEnv(env)
    ensures LinesAfter(lines, "clear" + rest, h, env) == [] <==> rest == [] || rest[0] == ' '
  {
    var t := "clear" + rest;
    EmptyOnlyOnClear(lines, t, h, env);
    if rest == [] || rest[0] == ' ' {
      ClearRegistered();
      FirstWordRuns("clear", rest);
    } else {
      FirstWordLonger("clear", rest);
      OtherWordKeeps(t);
    }
  }

  /** A word followed directly by a non-space is not the whole first word. */
  lemma FirstWordLonger(w: string, rest: string)
    requires ' ' !in w
    requires rest != [] && rest[0] != ' '
    ensures BeforeFirst(w + rest, ' ') != w
  {
    var s := w + rest;
    assert s[|w|] == rest[0];
  }

  /** "clear" is registered, for `clear`. */
  lemma ClearRegistered()
    ensures "clear" in Registry && Registry["clear"] == Clear
  {
  }

  /** A registered word followed by nothing or by a space runs its command. */
  lemma FirstWordRuns(w: string, rest: string)
    requires w != [] && ' ' !in w && w in Registry
    requires rest == [] || rest[0] == ' '
    ensures DispatchOf(w + rest) == Run(Registry[w])
  {
    FirstWordOf(w, rest);
  }

  /** An input whose first word is not "clear" does not run `clear`. */
  lemma OtherWordKeeps(t: string)
    requires t != [] && BeforeFirst(t, ' ') != "clear"
    ensures DispatchOf(t) != Run(Clear)
  {
    var token := BeforeFirst(t, ' ');
    if token in Registry {
      OnlyClearClears(token);
    }
  }

  /** The log is emptied exactly when the input runs `clear`; every other
      input at least adds its echo. */
  lemma EmptyOnlyOnClear(lines: seq<Line>, t: string, h: seq<string>, env: Env)
    requires ValidEnv(env)
    ensures LinesAfter(lines, t, h, env) == [] <==> DispatchOf(t) == Run(Clear)
  {
    var e := EchoLine(t, env.time);
    match DispatchOf(t)
    case Blank =>
      assert LinesAfter(lines, t, h, env) == lines + [e];
    case Unknown(token) =>
      assert LinesAfter(lines, t, h, env) == lines + [e] + [Line(ErrorLine, ErrorText(token), None)];
    case Run(c) =>
      if c != Clear {
        assert LinesAfter(lines, t, h, env) == lines + [e] + OutputLines(Outputs(c, h, env));
      }
  }

  /** No registered name but "clear" runs `clear`. */
  lemma OnlyClearClears(k: string)
    requires k in Registry && k != "clear"
    ensures Registry[k] != Clear
  {
  }

  /** The first word is the text before the first space. */
  lemma {:induction false} FirstWordOf(w: string, rest: string)
    requires ' ' !in w
    requires rest == [] || rest[0] == ' '
    ensures BeforeFirst(w + rest, ' ') == w
  {
    if w != [] {
      assert (w + rest)[0] == w[0];
      assert (w + rest)[1..] == w[1..] + rest;
      FirstWordOf(w[1..], rest);
    } else {
      assert w + rest == rest;
    }
  }

  /** Whatever follows the first space is ignored. */
  lemma ArgumentsIgnored(w: string, args: string)
    requires w != [] && ' ' !in w
    ensures DispatchOf(w + " " + args) == DispatchOf(w)
  {
    FirstWordOf(w, " " + args);
    FirstWordOf(w, []);
    assert w + " " + args == w + (" " + args);
    assert w + [] == w;
  }

  /** A first word that is not one of the 25 names gets exactly the echo and
      one error line naming it, and leaves the sections alone. */
  lemma UnknownFirstWord(lines: seq<Line>, w: string, args: string, h: seq<string>, visible: set<string>, env: Env)
    requires ValidEnv(env)
    requires w != [] && ' ' !in w && w !in Registry
    ensures var t := w + " " + args;
      && DispatchOf(t) == Unknown(w)
      && LinesAfter(lines, t, h, env)
         == lines + [Line(CommandLine, Prompt + t, Some(env.time)), Line(ErrorLine, "Command not found: " + w + ". Type 'help' for available commands.", None)]
      && VisibleAfter(visible, t) == visible
  {
    ArgumentsIgnored(w, args);
    FirstWordOf(w, []);
    assert w + [] == w;
    UnknownLines(lines, w + " " + args, h, env);
  }

  /** The log after an input whose first word is not registered: the echo,
      then one error line naming that word. */
  lemma UnknownLines(lines: seq<Line>, t: string, h: seq<string>, env: Env)
    requires ValidEnv(env)
    requires DispatchOf(t).Unknown?
    ensures LinesAfter(lines, t, h, env)
      == lines + [EchoLine(t, env.time), Line(ErrorLine, ErrorText(DispatchOf(t).token), None)]
  {
    var e := EchoLine(t, env.time);
    var err := Line(ErrorLine, ErrorText(DispatchOf(t).token), None);
    assert (lines + [e]) + [err] == lines + [e, err];
  }

  // ---------------------------------------------------------------------------
  // The history listing
  // ---------------------------------------------------------------------------

  /** Each `history` line starts with its 1-based position: reading it back
      with `parseInt` gives that number. */
  lemma HistoryNumbersParse(h: seq<string>, i: nat)
    requires i < |h|
    ensures ParseInt(HistoryListing(h)[i]) == Int(i + 1)
  {
    var rest := "  " + h[i];
    assert HistoryListing(h) == HistoryEntries(h);
    assert HistoryEntries(h)[i] == NatToString(i + 1) + "  " + h[i];
    assert NatToString(i + 1) + "  " + h[i] == NatToString(i + 1) + rest;
    assert rest[0] == ' ';
    ParseIntOfNat(i + 1, rest);
  }

  // ---------------------------------------------------------------------------
  // The registry and the section commands
  // ---------------------------------------------------------------------------

  /** Each section command is registered under the section's own name and
      opens that section. */
  lemma SectionCommandsOpenOwnName(s: Section, visible: set<string>)
    ensures s.Name() in Registry && Registry[s.Name()] == ShowSection(s)
    ensures s.Name() in OverlaySet
    ensures VisibleAfter(visible, s.Name()) == visible + {s.Name()}
  {
    RegisteredSection(s);
    SectionNameIsWord(s);
    RegisteredWordRuns(s.Name());
  }

  /** A registered single word runs its command. */
  lemma RegisteredWordRuns(w: string)
    requires w != [] && ' ' !in w && w in Registry
    ensures DispatchOf(w) == Run(Registry[w])
  {
    FirstWordOf(w, []);
    assert w + [] == w;
  }

  /** A section's name is a single non-empty word, one of the overlay names. */
  lemma SectionNameIsWord(s: Section)
    ensures s.Name() != [] && ' ' !in s.Name() && s.Name() in OverlaySet
  {
    match s
    case About =>
    case Projects =>
    case Services =>
    case Contact =>
    case Timeline =>
    case Overview =>
    case Testimonials =>
  }

  lemma RegisteredSection(s: Section)
    ensures s.Name() in Registry && Registry[s.Name()] == ShowSection(s)
  {
    match s
    case About =>
    case Projects =>
    case Services =>
    case Contact =>
    case Timeline =>
    case Overview =>
    case Testimonials =>
  }

  /** `home` hides the seven overlay sections and nothing else: "home" keeps
      its membership. `showall` adds exactly the seven. */
  lemma HomeAndShowAll(visible: set<string>)
    ensures var after := Effect(Home, visible);
      && (forall s :: s in OverlaySet ==> s !in after)
      && (forall s :: s !in OverlaySet ==> (s in after <==> s in visible))
      && ("home" in after <==> "home" in visible)
    ensures var after := Effect(ShowAll, visible);
      && OverlaySet <= after
      && (forall s :: s !in OverlaySet ==> (s in after <==> s in visible))
      && |after - visible| <= 7
  {
    var after := Effect(ShowAll, visible);
    assert after - visible <= OverlaySet;
    SubsetCard(after - visible, OverlaySet);
    OverlaySetSize();
  }

  lemma OverlaySetSize()
    ensures |OverlaySet| == 7
  {
    OverlaySetIsSections();
    OverlaySectionsShape();
    DistinctCard(OverlaySections);
  }

  /** A list without repeats has as many distinct elements as entries. */
  lemma {:induction false} DistinctCard(xs: seq<string>)
    requires forall i, j :: 0 <= i < j < |xs| ==> xs[i] != xs[j]
    ensures |set k | 0 <= k < |xs| :: xs[k]| == |xs|
  {
    if xs != [] {
      var init := xs[..|xs| - 1];
      DistinctCard(init);
      var a := set k | 0 <= k < |init| :: init[k];
      var b := set k | 0 <= k < |xs| :: xs[k];
      assert b == a + {xs[|xs| - 1]};
      assert xs[|xs| - 1] !in a;
    }
  }

  lemma SubsetCard(a: set<string>, b: set<string>)
    requires a <= b
    ensures |a| <= |b|
  {
    assert b == a + (b - a);
  }

  // ---------------------------------------------------------------------------
  // History recall with the arrow keys
  // ---------------------------------------------------------------------------

  /** The cursor after `k` ArrowUp presses from "not recalling". */
  function Ups(k: nat, n: nat): int {
    if k == 0 then -1 else UpIndex(Ups(k - 1, n), n)
  }

  /** The cursor stays in range, and ArrowDown undoes an ArrowUp that moved. */
  lemma RecallInverse(i: int, n: nat)
    requires -1 <= i < n
    ensures -1 <= UpIndex(i, n) < n && -1 <= DownIndex(i) < n
    ensures i < n - 1 ==> DownIndex(UpIndex(i, n)) == i
    ensures i >= 0 ==> UpIndex(DownIndex(i), n) == i
  {
  }

  /** `k` ArrowUp presses reach the k-th newest entry, stopping at the oldest. */
  lemma {:induction false} UpsReachOlderEntries(k: nat, n: nat)
    ensures Ups(k, n) == (if k < n then k else n) - 1
  {
    if k > 0 {
      UpsReachOlderEntries(k - 1, n);
    }
  }

  lemma UpsShowEntry(h: seq<string>, k: nat)
    requires 1 <= k <= |h|
    ensures 0 <= Ups(k, |h|) < |h| && Entry(h, Ups(k, |h|)) == h[|h| - k]
  {
    UpsReachOlderEntries(k, |h|);
  }

  // ---------------------------------------------------------------------------
  // The registry lookup: as written and corrected
  // ---------------------------------------------------------------------------

  /** A word of lower-case ASCII letters. */
  predicate LowerWord(k: string) {
    forall i :: 0 <= i < |k| ==> 'a' <= k[i] <= 'z'
  }

  /** Every registered name is a lower-case word. */
  lemma RegistryNamesLower()
    ensures forall k :: k in Registry ==> LowerWord(k)
  {
  }

  /** "constructor", the one inherited name made of lower-case letters only,
      is not registered. */
  lemma ConstructorUnregistered()
    ensures "constructor" !in Registry
  {
  }

  /** Where an inherited name other than "constructor" has a character that
      is not a lower-case letter. */
  function NonLowerAt(token: string): (k: nat)
    requires token in InheritedNames && token != "constructor"
    ensures k < |token| && !('a' <= token[k] <= 'z')
  {
    if token[0] == '_' then 0
    else if token in {"isPrototypeOf", "toLocaleString", "toString"} then 2
    else if token == "hasOwnProperty" then 3
    else if token == "valueOf" then 5
    else 8
  }

  /** No name inherited from `Object.prototype` is a registered command:
      "constructor" is checked directly, every other one has a character no
      registered name has. */
  lemma InheritedNamesUnregistered(token: string)
    requires token in InheritedNames
    ensures token !in Registry
  {
    if token == "constructor" {
      ConstructorUnregistered();
    } else {
      RegistryNamesLower();
      var k := NonLowerAt(token);
    }
  }

  /** Every inherited name is a single non-empty word. */
  lemma InheritedNameIsWord(w: string)
    requires w in InheritedNames
    ensures w != [] && ' ' !in w
  {
  }

  /** Typed alone, an inherited name is its own first word. */
  lemma InheritedFirstWord(w: string)
    requires w in InheritedNames
    ensures BeforeFirst(w, ' ') == w
  {
    InheritedNameIsWord(w);
    FirstWordOf(w, []);
    assert w + [] == w;
  }

  /** As written, typing any inherited name (`toString`, `constructor`,
      `valueOf`, `__proto__`, ...) echoes the input, prints no error, and
      leaves the terminal busy for good. */
  lemma AsWrittenInheritedNameSticks(lines: seq<Line>, w: string, h: seq<string>, env: Env, typing: bool)
    requires ValidEnv(env)
    requires w in InheritedNames
    ensures TypingAfterAsWritten(w, typing)
    ensures LinesAfterAsWritten(lines, w, h, env) == lines + [EchoLine(w, env.time)]
    ensures ErrorCount(LinesAfterAsWritten(lines, w, h, env)) == ErrorCount(lines)
  {
    InheritedNameIsWord(w);
    InheritedFirstWord(w);
    InheritedNamesUnregistered(w);
    ErrorCountAppend(lines, [EchoLine(w, env.time)]);
  }

  /** Corrected: only the registry's own names run; an inherited name is
      reported like any other unknown word, with one error line, and the busy
      flag is untouched. */
  lemma CorrectedReportsInheritedNames(lines: seq<Line>, w: string, h: seq<string>, env: Env)
    requires ValidEnv(env)
    requires w in InheritedNames
    ensures DispatchOf(w) == Unknown(w)
    ensures LinesAfter(lines, w, h, env) == lines + [EchoLine(w, env.time), Line(ErrorLine, ErrorText(w), None)]
    ensures ErrorCount(LinesAfter(lines, w, h, env)) == ErrorCount(lines) + 1
  {
    InheritedDispatch(w);
    UnknownLines(lines, w, h, env);
    ErrorCountAppend(lines, [EchoLine(w, env.time), Line(ErrorLine, ErrorText(w), None)]);
  }

  /** With the own-name lookup, an inherited name is an unknown word. */
  lemma InheritedDispatch(w: string)
    requires w in InheritedNames
    ensures DispatchOf(w) == Unknown(w)
  {
    InheritedNamesUnregistered(w);
    InheritedNameIsWord(w);
    InheritedFirstWord(w);
  }

  /** On every other input the two lookups agree. */
  lemma LookupsAgreeElsewhere(lines: seq<Line>, t: string, h: seq<string>, env: Env, typing: bool)
    requires ValidEnv(env)
    requires t == [] || BeforeFirst(t, ' ') !in InheritedNames
    ensures LinesAfterAsWritten(lines, t, h, env) == LinesAfter(lines, t, h, env)
    ensures TypingAfterAsWritten(t, typing) == if DispatchOf(t).Run? then false else typing
  {
  }
}

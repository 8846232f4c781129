/** The portfolio's terminal: a line-oriented command interpreter over a
    growing line log, a command history with arrow-key recall, and a registry
    of 25 named commands. Section commands drive the section store; the others
    print fixed text. The output pacing by timers is collapsed: every command's
    lines are appended at once, in the order the timers would append them. */
module Terminal {
  import opened JsText
  import opened Sections

  // ---------------------------------------------------------------------------
  // Lines, environment, commands
  // ---------------------------------------------------------------------------

  datatype LineKind = CommandLine | OutputLine | ErrorLine

  /** One line of the log. Line ids are not modelled; the timestamp is the
      clock's time-of-day text when the line was added. */
  datatype Line = Line(kind: LineKind, content: string, timestamp: Option<string>)

  /** What the clock and `Math.random` supply to one command: the time-of-day
      text for timestamps, the full date text `date` prints, the quote `quote`
      picks and the ten rows `matrix` prints. */
  datatype Env = Env(time: string, date: string, quoteIndex: nat, matrixRows: seq<string>)

  predicate IsMatrixRow(row: string) {
    |row| == 50 && forall k :: 0 <= k < |row| ==> row[k] == '0' || row[k] == '1'
  }

  predicate ValidEnv(env: Env) {
    && env.quoteIndex < |Quotes|
    && |env.matrixRows| == 10
    && forall i :: 0 <= i < |env.matrixRows| ==> IsMatrixRow(env.matrixRows[i])
  }

  /** The seven sections a terminal command can open. */
  datatype Section = About | Projects | Services | Contact | Timeline | Overview | Testimonials
  {
    function Name(): string {
      match this
      case About => "about"
      case Projects => "projects"
      case Services => "services"
      case Contact => "contact"
      case Timeline => "timeline"
      case Overview => "overview"
      case Testimonials => "testimonials"
    }

    function Script(): string {
      match this
      case About => "about_me.sh"
      case _ => Name() + ".sh"
    }

    function Confirmation(): string {
      match this
      case About => "\U{2713} About section overlay loaded"
      case Projects => "\U{2713} Projects overlay loaded"
      case Services => "\U{2713} Services overlay loaded"
      case Contact => "\U{2713} Contact overlay loaded"
      case Timeline => "\U{2713} Timeline overlay loaded"
      case Overview => "\U{2713} Overview overlay loaded"
      case Testimonials => "\U{2713} Testimonials overlay loaded"
    }
  }

  datatype Command =
    | Help | Clear | Whoami | ShowSection(section: Section) | Skills | Ls | Date | Pwd
    | History | Github | Matrix | Hack | Quote | Education | Experience | Email
    | Linkedin | Home | ShowAll

  /** The command registry: its 25 own names. */
  const Registry: map<string, Command> := map[
    "help" := Help, "clear" := Clear, "whoami" := Whoami,
    "about" := ShowSection(About), "projects" := ShowSection(Projects),
    "services" := ShowSection(Services), "contact" := ShowSection(Contact),
    "skills" := Skills, "ls" := Ls, "date" := Date, "pwd" := Pwd,
    "history" := History, "github" := Github, "matrix" := Matrix, "hack" := Hack,
    "quote" := Quote, "timeline" := ShowSection(Timeline), "education" := Education,
    "experience" := Experience, "email" := Email, "linkedin" := Linkedin,
    "home" := Home, "overview" := ShowSection(Overview),
    "testimonials" := ShowSection(Testimonials), "showall" := ShowAll
  ]

  // ---------------------------------------------------------------------------
  // Fixed texts
  // ---------------------------------------------------------------------------

  const Prompt: string := "venomx@portfolio:~$ "

  /** `'─'.repeat(n)`. */
  function Rule(n: nat): (r: string)
    ensures |r| == n && forall k :: 0 <= k < n ==> r[k] == '\U{2500}'
  {
    seq(n, _ => '\U{2500}')
  }

  function ErrorText(token: string): string {
    "Command not found: " + token + ". Type 'help' for available commands."
  }

  const ClickToClose: string := "Click outside overlay or X button to close"

  const HelpText: seq<string> := [
    "Available Commands:",
    Rule(60),
    "Section Overlays (appear as animated popups):",
    "  about        - Show About section overlay",
    "  projects     - Show Projects section overlay",
    "  services     - Show Services section overlay",
    "  contact      - Show Contact section overlay",
    "  timeline     - Show Timeline section overlay",
    "  overview     - Show Overview section overlay",
    "  testimonials - Show Testimonials section overlay",
    "  showall      - Show ALL sections as overlays at once",
    "  home         - Close all overlays and return to home",
    "",
    "Information:",
    "  whoami       - Display user information",
    "  skills       - List technical skills",
    "  experience   - Show work experience",
    "  education    - Display education background",
    "",
    "System:",
    "  clear        - Clear terminal screen",
    "  history      - Show command history",
    "  date         - Display current date and time",
    "  pwd          - Print working directory",
    "  ls           - List available sections",
    "",
    "Social:",
    "  github       - Open GitHub profile",
    "  linkedin     - Open LinkedIn profile",
    "  email        - Show contact email",
    "",
    "Fun:",
    "  matrix       - Enable matrix mode",
    "  hack         - Run hacking simulation",
    "  quote        - Display random quote",
    "",
    "\U{1F3AF} Single Page App: Sections appear as animated overlays!",
    "\U{1F4A1} Click outside overlay or X button to close sections"
  ]

  const WhoamiText: seq<string> := [
    "User: venomx",
    "Role: Computer System Engineer & AI Developer",
    "Location: Kenya",
    "Specialization: Cybersecurity, AI Development, Full Stack",
    "Status: Available for opportunities",
    "Security Clearance: Ethical Hacker"
  ]

  const SkillsText: seq<string> := [
    "Technical Skills:",
    Rule(30),
    "Languages: Python, JavaScript, TypeScript, Java, C++",
    "Frameworks: React, Node.js, Django, FastAPI",
    "AI/ML: TensorFlow, PyTorch, Scikit-learn",
    "Security: Penetration Testing, Vulnerability Assessment",
    "Cloud: AWS, Azure, Google Cloud",
    "Databases: PostgreSQL, MongoDB, Redis",
    "Tools: Docker, Kubernetes, Git, Linux"
  ]

  const LsText: seq<string> := [
    "drwxr-xr-x  2 venomx venomx 4096 Jan 19 2025 about/",
    "drwxr-xr-x  2 venomx venomx 4096 Jan 19 2025 projects/",
    "drwxr-xr-x  2 venomx venomx 4096 Jan 19 2025 services/",
    "drwxr-xr-x  2 venomx venomx 4096 Jan 19 2025 timeline/",
    "drwxr-xr-x  2 venomx venomx 4096 Jan 19 2025 contact/",
    "-rw-r--r--  1 venomx venomx 2048 Jan 19 2025 resume.pdf"
  ]

  const HackText: seq<string> := [
    "Initializing penetration test...",
    "Scanning for open ports...",
    "Port 22: SSH - OPEN",
    "Port 80: HTTP - OPEN",
    "Port 443: HTTPS - OPEN",
    "Running vulnerability assessment...",
    "Checking for SQL injection...",
    "Testing XSS vulnerabilities...",
    "Analyzing security headers...",
    "Generating security report...",
    "\U{2713} Ethical hacking simulation complete",
    "No vulnerabilities found - System is secure!"
  ]

  const EducationText: seq<string> := [
    "Education Background:",
    Rule(30),
    "Computer System Engineering",
    "Specialization: AI & Cybersecurity",
    "Focus Areas:",
    "  \U{2022} Machine Learning & Deep Learning",
    "  \U{2022} Ethical Hacking & Penetration Testing",
    "  \U{2022} Full Stack Development",
    "  \U{2022} Cloud Computing & DevOps"
  ]

  const ExperienceText: seq<string> := [
    "Work Experience:",
    Rule(30),
    "AI Developer & Cybersecurity Specialist",
    "\U{2022} Developed AI-powered security solutions",
    "\U{2022} Conducted penetration testing and vulnerability assessments",
    "\U{2022} Built full-stack applications with modern frameworks",
    "\U{2022} Implemented machine learning models for threat detection",
    "\U{2022} Collaborated on open-source security projects"
  ]

  const Quotes: seq<string> := [
    "\"The best way to predict the future is to invent it.\" - Alan Kay",
    "\"Code is like humor. When you have to explain it, it's bad.\" - Cory House",
    "\"Security is not a product, but a process.\" - Bruce Schneier",
    "\"AI is the new electricity.\" - Andrew Ng",
    "\"The only way to do great work is to love what you do.\" - Steve Jobs"
  ]

  const GithubText: seq<string> :=
    ["Opening GitHub profile...", "\U{2713} GitHub profile opened in new tab"]

  const LinkedinText: seq<string> :=
    ["Opening LinkedIn profile...", "\U{2713} LinkedIn profile opened in new tab"]

  const EmailText: seq<string> :=
    ["Email: venomx0@protonmail.com", "Feel free to reach out for collaborations!"]

  const HomeText: seq<string> :=
    ["Returning to home...", "\U{2713} All overlays closed - Welcome back home"]

  const ShowAllText: seq<string> := [
    "Loading all sections...",
    "\U{2713} All section overlays loaded",
    "Multiple overlays are now open - click outside or X to close individual sections",
    "Use \"home\" command to close all overlays at once"
  ]

  /** The log the terminal starts with; only its first line is timestamped. */
  function InitialLines(time: string): seq<Line> {
    [
      Line(OutputLine, "\U{1F680} Welcome to venomx's Dynamic Portfolio Terminal v3.0.0", Some(time)),
      Line(OutputLine, Rule(40), None),
      Line(OutputLine, "\U{1F3AF} DYNAMIC LOADING: Sections load only when you navigate to them!", None),
      Line(OutputLine, "\U{1F4A1} Type commands to explore my portfolio dynamically", None),
      Line(OutputLine, "\U{1F4CB} Quick start: \"help\" | \"about\" | \"projects\" | \"showall\"", None),
      Line(OutputLine, "\U{1F3AE} Fun commands: \"hack\" | \"matrix\" | \"skills\"", None),
      Line(OutputLine, "\U{1F504} Toggle \"Scroll Mode\" button to switch to traditional navigation", None),
      Line(OutputLine, "", None)
    ]
  }

  // ---------------------------------------------------------------------------
  // What one input does, as functions of the state before it
  // ---------------------------------------------------------------------------

  /** Output lines carrying the given texts, in order, without timestamps. */
  function OutputLines(texts: seq<string>): (r: seq<Line>)
    ensures |r| == |texts|
    ensures forall i :: 0 <= i < |r| ==> r[i].kind == OutputLine && r[i].content == texts[i] && r[i].timestamp == None
  {
    seq(|texts|, i requires 0 <= i < |texts| => Line(OutputLine, texts[i], None))
  }

  lemma OutputLinesAppend(a: seq<string>, b: seq<string>)
    ensures OutputLines(a + b) == OutputLines(a) + OutputLines(b)
  {
  }

  /** The output lines of a non-empty list: its first line, then the rest. */
  lemma OutputLinesFirst(texts: seq<string>)
    requires texts != []
    ensures OutputLines(texts) == [Line(OutputLine, texts[0], None)] + OutputLines(texts[1..])
  {
    assert texts == [texts[0]] + texts[1..];
    OutputLinesAppend([texts[0]], texts[1..]);
  }

  /** The `history` listing: entry i (from 0) is numbered i + 1. */
  function HistoryEntries(h: seq<string>): (r: seq<string>)
    ensures |r| == |h|
  {
    seq(|h|, i requires 0 <= i < |h| => NatToString(i + 1) + "  " + h[i])
  }

  /** What `history` prints for history `h`. */
  function HistoryListing(h: seq<string>): seq<string> {
    if h == [] then ["No commands in history"] else HistoryEntries(h)
  }

  /** The output texts a command's action appends, given the history as it
      stood when the input was entered. `clear` appends nothing (it empties
      the log instead). */
  function Outputs(c: Command, h: seq<string>, env: Env): seq<string>
    requires ValidEnv(env)
  {
    if IsFixedText(c) then FixedText(c)
    else match c
      case ShowSection(s) => ["Executing " + s.Script() + "...", s.Confirmation(), ClickToClose]
      case Date => [env.date]
      case Pwd => ["/home/venomx/portfolio"]
      case History => HistoryListing(h)
      case Matrix => ["Entering the Matrix..."] + env.matrixRows
      case Quote => [Quotes[env.quoteIndex]]
      case Home => HomeText
      case ShowAll => ShowAllText
      case _ => []
  }

  /** The commands whose action only prints a fixed array of lines. */
  predicate IsFixedText(c: Command) {
    || c.Help? || c.Whoami? || c.Skills? || c.Ls? || c.Github? || c.Hack?
    || c.Education? || c.Experience? || c.Email? || c.Linkedin?
  }

  function FixedText(c: Command): seq<string>
    requires IsFixedText(c)
  {
    match c
    case Help => HelpText
    case Whoami => WhoamiText
    case Skills => SkillsText
    case Ls => LsText
    case Github => GithubText
    case Hack => HackText
    case Education => EducationText
    case Experience => ExperienceText
    case Email => EmailText
    case Linkedin => LinkedinText
  }

  /** The seven overlay sections as a set. */
  const OverlaySet: set<string> :=
    {"about", "overview", "timeline", "services", "projects", "testimonials", "contact"}

  lemma OverlaySetIsSections()
    ensures (set k | 0 <= k < |OverlaySections| :: OverlaySections[k]) == OverlaySet
  {
    var listed := set k | 0 <= k < |OverlaySections| :: OverlaySections[k];
    assert OverlaySections[0] in listed && OverlaySections[1] in listed;
    assert OverlaySections[2] in listed && OverlaySections[3] in listed;
    assert OverlaySections[4] in listed && OverlaySections[5] in listed;
    assert OverlaySections[6] in listed;
  }

  /** What a command does to the visible sections. */
  function Effect(c: Command, visible: set<string>): set<string> {
    match c
    case ShowSection(s) => visible + {s.Name()}
    case Home => visible - OverlaySet
    case ShowAll => visible + OverlaySet
    case _ => visible
  }

  /** How a trimmed input resolves: nothing to run, an unregistered first
      word, or a registered command (looked up among the registry's own
      names). */
  datatype Dispatch = Blank | Unknown(token: string) | Run(cmd: Command)

  /** The first word is the text before the first space. */
  function DispatchOf(t: string): Dispatch {
    if t == [] then Blank
    else
      var token := BeforeFirst(t, ' ');
      if token in Registry then Run(Registry[token]) else Unknown(token)
  }

  /** The names every plain object inherits from `Object.prototype`. */
  const InheritedNames: set<string> := {
    "constructor", "hasOwnProperty", "isPrototypeOf", "propertyIsEnumerable",
    "toLocaleString", "toString", "valueOf", "__proto__",
    "__defineGetter__", "__defineSetter__", "__lookupGetter__", "__lookupSetter__"
  }

  /** The registry lookup as the component writes it: a property read on a
      plain object, which also finds the inherited names. Their values are
      truthy but have no `action`. */
  datatype Lookup = Own(cmd: Command) | Inherited | Absent

  function LookupAsWritten(token: string): Lookup {
    if token in Registry then Own(Registry[token])
    else if token in InheritedNames then Inherited
    else Absent
  }

  /** `isTyping` after an input, as written: a registered command sets it and
      its timer clears it; an inherited name sets it and its timer throws
      before clearing it, so it stays set (and the input field stays
      disabled). */
  function TypingAfterAsWritten(t: string, typing: bool): bool {
    if t == [] then typing
    else match LookupAsWritten(BeforeFirst(t, ' '))
      case Own(_) => false
      case Inherited => true
      case Absent => typing
  }

  /** The log after an input, as written (for inputs that are not `clear`):
      an inherited name gets the echo and nothing else. */
  function LinesAfterAsWritten(lines: seq<Line>, t: string, h: seq<string>, env: Env): seq<Line>
    requires ValidEnv(env)
  {
    var echoed := lines + [EchoLine(t, env.time)];
    if t == [] then echoed
    else match LookupAsWritten(BeforeFirst(t, ' '))
      case Own(c) => if c == Clear then [] else echoed + OutputLines(Outputs(c, h, env))
      case Inherited => echoed
      case Absent => echoed + [Line(ErrorLine, ErrorText(BeforeFirst(t, ' ')), None)]
  }

  function EchoLine(t: string, time: string): Line {
    Line(CommandLine, Prompt + t, Some(time))
  }

  /** The history after entering trimmed input `t`: appended when non-empty and
      not already anywhere in the history. */
  function HistoryAfter(h: seq<string>, t: string): seq<string> {
    if t != [] && t !in h then h + [t] else h
  }

  /** The log after entering trimmed input `t`, given the history before it. */
  function LinesAfter(lines: seq<Line>, t: string, h: seq<string>, env: Env): seq<Line>
    requires ValidEnv(env)
  {
    var echoed := lines + [EchoLine(t, env.time)];
    match DispatchOf(t)
    case Blank => echoed
    case Unknown(token) => echoed + [Line(ErrorLine, ErrorText(token), None)]
    case Run(c) => if c == Clear then [] else echoed + OutputLines(Outputs(c, h, env))
  }

  function VisibleAfter(visible: set<string>, t: string): set<string> {
    match DispatchOf(t)
    case Run(c) => Effect(c, visible)
    case _ => visible
  }

  /** The recall cursor after ArrowUp: one entry older, unless at the oldest. */
  function UpIndex(i: int, n: nat): int {
    if i < n - 1 then i + 1 else i
  }

  /** The recall cursor after ArrowDown: one entry newer, leaving recall
      (-1) from the newest entry; unchanged when not recalling. */
  function DownIndex(i: int): int {
    if i > 0 then i - 1 else if i == 0 then -1 else i
  }

  /** The history entry cursor `i` points at: 0 is the newest. */
  function Entry(h: seq<string>, i: int): string
    requires 0 <= i < |h|
  {
    h[|h| - 1 - i]
  }

  /** The keys the input field reacts to. */
  datatype Key = Enter | ArrowUp | ArrowDown | OtherKey

  // ---------------------------------------------------------------------------
  // The terminal component's state
  // ---------------------------------------------------------------------------

  class TerminalSession {
    const store: SectionStore
    var lines: seq<Line>
    var history: seq<string>
    var historyIndex: int
    var currentInput: string
    var isTyping: bool

    /** The recall cursor stays within the history, -1 meaning "not recalling". */
    ghost predicate Valid()
      reads this
    {
      -1 <= historyIndex < |history|
    }

    constructor (store: SectionStore, time: string)
      ensures this.store == store
      ensures lines == InitialLines(time) && history == [] && historyIndex == -1
      ensures currentInput == "" && !isTyping
      ensures Valid()
    {
      this.store := store;
      lines := InitialLines(time);
      history := [];
      historyIndex := -1;
      currentInput := "";
      isTyping := false;
    }

    /** `addLine`: appends one line; only command lines get a timestamp. */
    method AddLine(kind: LineKind, content: string, time: string)
      modifies this`lines
      ensures lines == old(lines) + [Line(kind, content, if kind == CommandLine then Some(time) else None)]
    {
      var stamp := if kind == CommandLine then Some(time) else None;
      lines := lines + [Line(kind, content, stamp)];
    }

    /** The actions' `forEach` over a text array: one output line per text. */
    method Emit(texts: seq<string>)
      modifies this`lines
      ensures lines == old(lines) + OutputLines(texts)
    {
      var i := 0;
      while i < |texts|
        invariant 0 <= i <= |texts|
        invariant lines == old(lines) + OutputLines(texts[..i])
      {
        AddLine(OutputLine, texts[i], "");
        i := i + 1;
      }
      assert texts[..i] == texts;
    }

    /** The `history` action: lists the history captured when the input was
        entered. */
    method ListHistory(h: seq<string>)
      modifies this`lines
      ensures lines == old(lines) + OutputLines(HistoryListing(h))
    {
      if |h| == 0 {
        AddLine(OutputLine, "No commands in history", "");
        return;
      }
      var i := 0;
      while i < |h|
        invariant 0 <= i <= |h|
        invariant lines == old(lines) + OutputLines(HistoryEntries(h)[..i])
      {
        AddLine(OutputLine, NatToString(i + 1) + "  " + h[i], "");
        assert HistoryEntries(h)[..i + 1] == HistoryEntries(h)[..i] + [HistoryEntries(h)[i]];
        i := i + 1;
      }
      assert HistoryEntries(h)[..i] == HistoryEntries(h);
    }

    /** `home`: announce, hide the seven overlay sections one by one, confirm. */
    method GoHome()
      modifies this`lines, store
      ensures lines == old(lines) + OutputLines(HomeText)
      ensures store.visible == old(store.visible) - OverlaySet
    {
      AddLine(OutputLine, HomeText[0], "");
      var i := 0;
      while i < |OverlaySections|
        invariant 0 <= i <= |OverlaySections|
        invariant lines == old(lines) + OutputLines(HomeText[..1])
        invariant store.visible == old(store.visible) - set k | 0 <= k < i :: OverlaySections[k]
      {
        store.Hide(OverlaySections[i]);
        i := i + 1;
      }
      OverlaySetIsSections();
      AddLine(OutputLine, HomeText[1], "");
      assert HomeText == HomeText[..1] + [HomeText[1]];
    }

    /** `showall`: announce, show the seven overlay sections, confirm. */
    method ShowEverything()
      modifies this`lines, store
      ensures lines == old(lines) + OutputLines(ShowAllText)
      ensures store.visible == old(store.visible) + OverlaySet
    {
      AddLine(OutputLine, ShowAllText[0], "");
      ShowOverlays();
      Emit(ShowAllText[1..]);
      OutputLinesFirst(ShowAllText);
    }

    /** The seven `showSection` calls of `showall`, in overlay order. */
    method ShowOverlays()
      modifies store
      ensures store.visible == old(store.visible) + OverlaySet
    {
      store.Show("about");
      store.Show("overview");
      store.Show("timeline");
      store.Show("services");
      store.Show("projects");
      store.Show("testimonials");
      store.Show("contact");
    }

    /** A section command: announce, show the section, confirm. */
    method OpenSection(s: Section)
      modifies this`lines, store
      ensures lines == old(lines) + OutputLines(["Executing " + s.Script() + "...", s.Confirmation(), ClickToClose])
      ensures store.visible == old(store.visible) + {s.Name()}
    {
      AddLine(OutputLine, "Executing " + s.Script() + "...", "");
      store.Show(s.Name());
      AddLine(OutputLine, s.Confirmation(), "");
      AddLine(OutputLine, ClickToClose, "");
    }

    /** Runs one registered command's action. */
    method RunAction(c: Command, h: seq<string>, env: Env)
      requires ValidEnv(env)
      modifies this`lines, store
      ensures lines == if c == Clear then [] else old(lines) + OutputLines(Outputs(c, h, env))
      ensures store.visible == Effect(c, old(store.visible))
    {
      match c
      case Clear => lines := [];
      case ShowSection(s) =>
        assert Outputs(c, h, env) == ["Executing " + s.Script() + "...", s.Confirmation(), ClickToClose];
        OpenSection(s);
      case History =>
        assert Outputs(c, h, env) == HistoryListing(h);
        ListHistory(h);
      case Home =>
        assert Outputs(c, h, env) == HomeText;
        GoHome();
      case ShowAll =>
        assert Outputs(c, h, env) == ShowAllText;
        ShowEverything();
      case _ => Emit(Outputs(c, h, env));
    }

    /** `executeCommand`: record the trimmed input in the history, echo it,
        then run its first word's command or report it unknown. */
    method Execute(input: string, env: Env)
      requires ValidEnv(env)
      modifies this`lines, this`history, this`isTyping, store
      ensures history == HistoryAfter(old(history), Trim(input))
      ensures lines == LinesAfter(old(lines), Trim(input), old(history), env)
      ensures store.visible == VisibleAfter(old(store.visible), Trim(input))
      ensures isTyping == if DispatchOf(Trim(input)).Run? then false else old(isTyping)
    {
      var t := Trim(input);
      var captured := history;
      Record(t);
      Respond(t, captured, env);
    }

    /** The history update of `executeCommand`. */
    method Record(t: string)
      modifies this`history
      ensures history == HistoryAfter(old(history), t)
    {
      if t != [] && t !in history {
        history := history + [t];
      }
    }

    /** The echo and the dispatch of `executeCommand`, given the history as it
        was when the input was entered. */
    method Respond(t: string, h: seq<string>, env: Env)
      requires ValidEnv(env)
      modifies this`lines, this`isTyping, store
      ensures lines == LinesAfter(old(lines), t, h, env)
      ensures store.visible == VisibleAfter(old(store.visible), t)
      ensures isTyping == if DispatchOf(t).Run? then false else old(isTyping)
    {
      AddLine(CommandLine, Prompt + t, env.time);
      var d := DispatchOf(t);
      match d
      case Blank =>
      case Run(c) =>
        isTyping := true;
        RunAction(c, h, env);
        isTyping := false;
      case Unknown(token) =>
        AddLine(ErrorLine, ErrorText(token), env.time);
    }

    /** The input field's `onChange`. */
    method SetInput(text: string)
      modifies this`currentInput
      ensures currentInput == text
    {
      currentInput := text;
    }

    /** `handleKeyDown`: Enter executes the current input and resets the
        field and the cursor; the arrows move the cursor through the history,
        newest first, and load the entry it points at. */
    method KeyDown(key: Key, env: Env)
      requires Valid() && ValidEnv(env)
      modifies this`lines, this`history, this`isTyping, this`historyIndex, this`currentInput, store
      ensures Valid()
      ensures key == Enter ==>
        && history == HistoryAfter(old(history), Trim(old(currentInput)))
        && lines == LinesAfter(old(lines), Trim(old(currentInput)), old(history), env)
        && store.visible == VisibleAfter(old(store.visible), Trim(old(currentInput)))
        && isTyping == (if DispatchOf(Trim(old(currentInput))).Run? then false else old(isTyping))
        && currentInput == "" && historyIndex == -1
      ensures key != Enter ==>
        && lines == old(lines) && history == old(history) && isTyping == old(isTyping)
        && store.visible == old(store.visible)
      ensures key == ArrowUp ==>
        && historyIndex == UpIndex(old(historyIndex), |history|)
        && currentInput == if historyIndex == old(historyIndex) then old(currentInput) else Entry(history, historyIndex)
      ensures key == ArrowDown ==>
        && historyIndex == DownIndex(old(historyIndex))
        && currentInput ==
             if historyIndex == old(historyIndex) then old(currentInput)
             else if historyIndex == -1 then ""
             else Entry(history, historyIndex)
      ensures key == OtherKey ==> historyIndex == old(historyIndex) && currentInput == old(currentInput)
    {
      match key
      case Enter => Submit(env);
      case ArrowUp => HistoryUp();
      case ArrowDown => HistoryDown();
      case OtherKey =>
    }

    /** Enter: executes the current input, then clears the field and the cursor. */
    method Submit(env: Env)
      requires ValidEnv(env)
      modifies this`lines, this`history, this`isTyping, this`historyIndex, this`currentInput, store
      ensures history == HistoryAfter(old(history), Trim(old(currentInput)))
      ensures lines == LinesAfter(old(lines), Trim(old(currentInput)), old(history), env)
      ensures store.visible == VisibleAfter(old(store.visible), Trim(old(currentInput)))
      ensures isTyping == if DispatchOf(Trim(old(currentInput))).Run? then false else old(isTyping)
      ensures currentInput == "" && historyIndex == -1
    {
      var input := currentInput;
      ghost var h0, l0, v0, t0 := history, lines, store.visible, isTyping;
      Execute(input, env);
      assert history == HistoryAfter(h0, Trim(input));
      assert lines == LinesAfter(l0, Trim(input), h0, env);
      assert store.visible == VisibleAfter(v0, Trim(input));
      assert isTyping == if DispatchOf(Trim(input)).Run? then false else t0;
      currentInput := "";
      historyIndex := -1;
    }

    /** ArrowUp: one step older, if there is an older entry, loading it. */
    method HistoryUp()
      requires Valid()
      modifies this`historyIndex, this`currentInput
      ensures Valid()
      ensures historyIndex == UpIndex(old(historyIndex), |history|)
      ensures currentInput == if historyIndex == old(historyIndex) then old(currentInput) else Entry(history, historyIndex)
    {
      if historyIndex < |history| - 1 {
        var newIndex := historyIndex + 1;
        historyIndex := newIndex;
        currentInput := history[|history| - 1 - newIndex];
      }
    }

    /** ArrowDown: one step newer, loading that entry, or back to the empty
        field from the newest one. */
    method HistoryDown()
      requires Valid()
      modifies this`historyIndex, this`currentInput
      ensures Valid()
      ensures historyIndex == DownIndex(old(historyIndex))
      ensures currentInput ==
        if historyIndex == old(historyIndex) then old(currentInput)
        else if historyIndex == -1 then ""
        else Entry(history, historyIndex)
    {
      if historyIndex > 0 {
        var newIndex := historyIndex - 1;
        historyIndex := newIndex;
        currentInput := history[|history| - 1 - newIndex];
      } else if historyIndex == 0 {
        historyIndex := -1;
        currentInput := "";
      }
    }
  }
}

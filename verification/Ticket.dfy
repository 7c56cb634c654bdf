/** The Xerox print ticket: XPIF lines inside PJL, around the document. */
module Tickets {
  import opened Jobs
  import opened Decimal
  import opened Utf8
  import opened Escapes

  const ONE_SIDED := "one-sided"
  const TWO_SIDED := "two-sided-long-edge"
  const COLOR := "color"
  const MONOCHROME := "monochrome-grayscale"
  const USER_DOMAIN := "CAMPUS"
  const JOB_PREFIX := "piping-job-"
  const LETTER_X := "21590"
  const LETTER_Y := "27940"

  datatype Attributes = Attributes(copies: int, sides: string, colorMode: string, jobName: string, user: string)

  function FromJob(id: int, j: Job): Attributes {
    Attributes(j.copies, if j.duplex then TWO_SIDED else ONE_SIDED, if j.color then COLOR else MONOCHROME,
      JOB_PREFIX + Itoa(id), j.user)
  }

  // ---- The lines of the ticket ----

  // A tag alone, or an element with its text; indented by tabs.
  datatype Line =
    | Tag(depth: nat, body: string)
    | Leaf(depth: nat, name: string, syntax: string, text: string)

  const KEYWORD := " syntax=\"keyword\""
  const INTEGER := " syntax=\"integer\""
  const COLLECTION := " syntax=\"collection\""
  const MIME := " syntax=\"mimeMediaType\""
  const NAME := " syntax=\"name\" xml:space=\"preserve\""

  function Tabs(n: nat): (s: string)
    ensures |s| == n && forall i | 0 <= i < n :: s[i] == '\t'
  {
    seq(n, _ => '\t')
  }

  function Shown(l: Line): string {
    match l
    case Tag(depth, body) => Tabs(depth) + ("<" + (body + (">" + "")))
    case Leaf(depth, name, syntax, text) =>
      Tabs(depth) + ("<" + ((name + syntax) + (">" + (text + ("<" + ("/" + (name + ">")))))))
  }

  function Prologue(): seq<Line> {
    [ Tag(0, "?xml version=\"1.0\"" + " encoding=\"UTF-8\"?"),
      Tag(0, "!DOCTYPE xpif SYSTEM" + " \"xpif-v02081.dtd\""),
      Tag(0, "xpif version=\"1.0\"" + (" cpss-version=\"2.07\"" + " xml:lang=\"en-US\"")),
      Tag(1, "job-template-attributes")
    ]
  }

  function Inking(a: Attributes): seq<Line> {
    [ Leaf(2, "color-effects-type", KEYWORD, Escape(a.colorMode)),
      Leaf(2, "copies", INTEGER, Itoa(a.copies)),
      Leaf(2, "job-sheets", KEYWORD, "none")
    ]
  }

  function Media(x: string, y: string): seq<Line> {
    [ Tag(2, "media-col" + COLLECTION),
      Tag(3, "media-size" + COLLECTION),
      Leaf(4, "x-dimension", INTEGER, Escape(x)),
      Leaf(4, "y-dimension", INTEGER, Escape(y)),
      Tag(3, "/media-size"),
      Tag(2, "/media-col")
    ]
  }

  function Finishing(a: Attributes): seq<Line> {
    [ Leaf(2, "sheet-collate", KEYWORD, "collated"),
      Leaf(2, "sides", KEYWORD, Escape(a.sides)),
      Tag(1, "/job-template-attributes"),
      Tag(1, "xpif-operation-attributes"),
      Leaf(2, "document-format", MIME, "application/pdf")
    ]
  }

  function Origin(a: Attributes, domain: string): seq<Line> {
    [ Leaf(2, "job-name", NAME, Escape(a.jobName)),
      Leaf(2, "job-originating-user-domain", NAME, Escape(domain)),
      Leaf(2, "job-originating-user-name", NAME, Escape(a.user)),
      Leaf(2, "requesting-user-name", NAME, Escape(a.user)),
      Tag(1, "/xpif-operation-attributes"),
      Tag(0, "/xpif")
    ]
  }

  function XpifLines(a: Attributes): seq<Line> {
    Prologue() + (Inking(a) + (Media(LETTER_X, LETTER_Y) + (Finishing(a) + Origin(a, USER_DOMAIN))))
  }

  // ---- Lines a reader can take apart ----

  // Printable text without angle brackets.
  predicate IsClean(s: string) {
    forall i | 0 <= i < |s| :: ' ' <= s[i] <= '~' && s[i] != '<' && s[i] != '>'
  }

  predicate IsName(s: string) {
    forall i | 0 <= i < |s| :: 'a' <= s[i] <= 'z' || s[i] == '-'
  }

  predicate IsSyntax(s: string) {
    s != "" && s[0] == ' ' && IsClean(s)
  }

  predicate WellShaped(l: Line) {
    match l
    case Tag(_, body) => IsClean(body)
    case Leaf(_, name, syntax, text) => IsName(name) && IsSyntax(syntax) && IsContained(text)
  }

  predicate AllShaped(lines: seq<Line>) {
    forall i | 0 <= i < |lines| :: WellShaped(lines[i])
  }

  lemma SyntaxesShaped()
    ensures IsSyntax(KEYWORD) && IsSyntax(INTEGER) && IsSyntax(COLLECTION) && IsSyntax(MIME)
  {
  }

  lemma NameSyntaxShaped()
    ensures IsSyntax(NAME)
  {
  }

  lemma PrologueStart()
    ensures IsClean("?xml version=\"1.0\"" + " encoding=\"UTF-8\"?")
  {
  }

  lemma PrologueType()
    ensures IsClean("!DOCTYPE xpif SYSTEM" + " \"xpif-v02081.dtd\"")
  {
  }

  lemma PrologueRoot()
    ensures IsClean("xpif version=\"1.0\"" + (" cpss-version=\"2.07\"" + " xml:lang=\"en-US\""))
  {
  }

  lemma PrologueGroup()
    ensures IsClean("job-template-attributes")
  {
  }

  lemma PrologueShaped()
    ensures AllShaped(Prologue())
  {
    PrologueStart();
    PrologueType();
    PrologueRoot();
    PrologueGroup();
  }

  lemma InkingNames()
    ensures IsName("color-effects-type") && IsName("copies") && IsName("job-sheets") && IsContained("none")
  {
  }

  lemma InkingShaped(a: Attributes)
    ensures AllShaped(Inking(a))
  {
    InkingNames();
    SyntaxesShaped();
    EscapeContained(a.colorMode);
    ItoaContained(a.copies);
  }

  lemma MediaNames()
    ensures IsName("x-dimension") && IsName("y-dimension")
    ensures IsClean("/media-size") && IsClean("/media-col") && IsClean("media-size") && IsClean("media-col")
  {
  }

  lemma MediaShaped(x: string, y: string)
    ensures AllShaped(Media(x, y))
  {
    MediaNames();
    SyntaxesShaped();
    EscapeContained(x);
    EscapeContained(y);
  }

  lemma FinishingNames()
    ensures IsName("sheet-collate") && IsContained("collated") && IsName("sides") && IsName("document-format")
    ensures IsContained("application/pdf")
  {
  }

  lemma FinishingGroups()
    ensures IsClean("/job-template-attributes") && IsClean("xpif-operation-attributes")
  {
  }

  lemma FinishingShaped(a: Attributes)
    ensures AllShaped(Finishing(a))
  {
    FinishingNames();
    FinishingGroups();
    SyntaxesShaped();
    EscapeContained(a.sides);
  }

  lemma OriginNames()
    ensures IsName("job-name") && IsName("requesting-user-name") && IsClean("/xpif")
  {
  }

  lemma OriginatingNames()
    ensures IsName("job-originating-user-domain") && IsName("job-originating-user-name")
  {
  }

  lemma OriginGroup()
    ensures IsClean("/xpif-operation-attributes")
  {
  }

  lemma OriginShaped(a: Attributes, domain: string)
    ensures AllShaped(Origin(a, domain))
  {
    OriginNames();
    OriginatingNames();
    OriginGroup();
    NameSyntaxShaped();
    EscapeContained(a.jobName);
    EscapeContained(domain);
    EscapeContained(a.user);
  }

  lemma ItoaContained(n: int)
    ensures IsContained(Itoa(n)) && forall i | 0 <= i < |Itoa(n)| :: Itoa(n)[i] != '&'
  {
  }

  lemma JoinedShaped(p: seq<Line>, i: seq<Line>, m: seq<Line>, f: seq<Line>, o: seq<Line>)
    requires AllShaped(p) && AllShaped(i) && AllShaped(m) && AllShaped(f) && AllShaped(o)
    ensures AllShaped(p + (i + (m + (f + o))))
  {
  }

  /** Every line of the ticket can be taken apart again, whatever the attributes hold. */
  lemma LinesShaped(a: Attributes)
    ensures AllShaped(XpifLines(a))
  {
    PrologueShaped();
    InkingShaped(a);
    MediaShaped(LETTER_X, LETTER_Y);
    FinishingShaped(a);
    OriginShaped(a, USER_DOMAIN);
    JoinedShaped(Prologue(), Inking(a), Media(LETTER_X, LETTER_Y), Finishing(a), Origin(a, USER_DOMAIN));
  }

  // ---- The stream ----

  const ESC := '\U{1B}'
  const UEL := "\U{1B}%-12345X"
  const CRLF := "\r\n"
  const JOB_TEXT := "@PJL JOB"
  const JOB := JOB_TEXT + CRLF
  const XCPT_START := "@PJL XCPT "
  const ENTER_TEXT := "@PJL ENTER LANGUAGE=PDF"
  const ENTER := ENTER_TEXT + CRLF
  const EOJ := "@PJL EOJ\r\n"

  function Instruction(l: Line): string {
    XCPT_START + (Shown(l) + CRLF)
  }

  function Instructions(lines: seq<Line>): string {
    if lines == [] then "" else Instruction(lines[0]) + Instructions(lines[1..])
  }

  function Header(a: Attributes): string {
    UEL + (JOB + (Instructions(XpifLines(a)) + ENTER))
  }

  function Trailer(): string {
    UEL + (EOJ + UEL)
  }

  // The stream for a document.
  function Stream(a: Attributes, doc: string): string {
    Header(a) + (doc + Trailer())
  }

  lemma {:induction false} InstructionsSnoc(lines: seq<Line>, l: Line)
    ensures Instructions(lines + [l]) == Instructions(lines) + Instruction(l)
  {
    if lines == [] {
      assert [l][1..] == [];
    } else {
      assert (lines + [l])[1..] == lines[1..] + [l];
      InstructionsSnoc(lines[1..], l);
    }
  }

  lemma Written(a: string, b: string, c: string, d: string, e: string, f: string, g: string, h: string)
    ensures a + b + c + d + e + f + g + h == (a + (b + (c + d))) + (e + (f + (g + h)))
  {
  }

  lemma Regrouped(a: string, b: string, c: string, d: string, e: string)
    ensures a + b + c + d + e == a + (b + (c + (d + e)))
  {
  }

  lemma WrittenLine(b: string, lines: seq<Line>, i: nat)
    requires i < |lines|
    ensures b + Instructions(lines[..i]) + XCPT_START + Shown(lines[i]) + CRLF == b + Instructions(lines[..i + 1])
  {
    assert lines[..i + 1] == lines[..i] + [lines[i]];
    InstructionsSnoc(lines[..i], lines[i]);
    Regrouped(b, Instructions(lines[..i]), XCPT_START, Shown(lines[i]), CRLF);
  }

  method WriteInstructions(written: string, lines: seq<Line>) returns (b: string)
    ensures b == written + Instructions(lines)
  {
    b := written;
    for i := 0 to |lines|
      invariant b == written + Instructions(lines[..i])
    {
      WrittenLine(written, lines, i);
      b := b + XCPT_START;
      b := b + Shown(lines[i]);
      b := b + CRLF;
    }
    assert lines[..|lines|] == lines;
  }

  method XCPT(a: Attributes, doc: string) returns (b: string)
    ensures b == Stream(a, doc)
  {
    b := UEL;
    b := b + JOB;
    b := WriteInstructions(b, XpifLines(a));
    b := b + ENTER;
    b := b + doc;
    b := b + UEL;
    b := b + EOJ;
    b := b + UEL;
    Written(UEL, JOB, Instructions(XpifLines(a)), ENTER, doc, UEL, EOJ, UEL);
  }

  // ---- A reader of the stream ----

  // A text cut at the first occurrence of a character, which belongs to neither part.
  datatype Cut = Cut(before: string, after: string)

  function CutAt(s: string, c: char): (r: Option<Cut>)
    ensures r.Some? ==> |r.value.after| < |s|
  {
    var n := IndexOf(s, c);
    if n == |s| then None else Some(Cut(s[..n], s[n + 1..]))
  }

  // The first line, ended by CR LF, and the rest.
  function CutLine(s: string): (r: Option<Cut>)
    ensures r.Some? ==> |r.value.after| < |s|
  {
    match CutAt(s, '\r')
    case None => None
    case Some(c) =>
      if c.after != "" && c.after[0] == '\n' then Some(Cut(c.before, c.after[1..])) else None
  }

  datatype Block = Block(lines: seq<string>, rest: string)

  function StripFront(s: string, front: string): Option<string> {
    if |s| >= |front| && s[..|front|] == front then Some(s[|front|..]) else None
  }

  function StripBack(s: string, back: string): Option<string> {
    if |s| >= |back| && s[|s| - |back|..] == back then Some(s[..|s| - |back|]) else None
  }

  // The instruction lines up to the one that enters the document's language, and what follows.
  function ReadBlock(s: string): Option<Block>
    decreases |s|
  {
    match CutLine(s)
    case None => None
    case Some(c) =>
      if c.before == ENTER_TEXT then Some(Block([], c.after))
      else PrependLine(StripFront(c.before, XCPT_START), ReadBlock(c.after))
  }

  function PrependLine(line: Option<string>, b: Option<Block>): Option<Block> {
    if line == None || b == None then None else Some(Block([line.value] + b.value.lines, b.value.rest))
  }

  datatype Element = Element(name: string, text: string)

  // The first tag on the line, without its brackets, and what follows it.
  function FirstTag(line: string): Option<Cut> {
    match CutAt(line, '<')
    case None => None
    case Some(c) => CutAt(c.after, '>')
  }

  // The element, if one begins and ends on the line.
  function ElementOf(line: string): Option<Element> {
    match FirstTag(line)
    case None => None
    case Some(tag) =>
      var name := tag.before[..IndexOf(tag.before, ' ')];
      match CutAt(tag.after, '<')
      case None => None
      case Some(body) => if body.after == "/" + (name + ">") then Some(Element(name, body.before)) else None
  }

  function Elements(lines: seq<string>): (es: seq<Option<Element>>)
    ensures |es| == |lines|
  {
    seq(|lines|, i requires 0 <= i < |lines| => ElementOf(lines[i]))
  }

  // The text of the first element of the name.
  function Field(es: seq<Option<Element>>, name: string): Option<string> {
    if es == [] then None
    else if es[0].Some? && es[0].value.name == name then Unescape(es[0].value.text)
    else Field(es[1..], name)
  }

  function ReadAttributes(es: seq<Option<Element>>): Option<Attributes> {
    var mode := Field(es, "color-effects-type");
    var copies := Field(es, "copies");
    var sides := Field(es, "sides");
    var jobName := Field(es, "job-name");
    var user := Field(es, "job-originating-user-name");
    if mode == None || copies == None || sides == None || jobName == None || user == None
       || Field(es, "requesting-user-name") != user || Atoi(copies.value) == None
    then None
    else Some(Attributes(Atoi(copies.value).value, sides.value, mode.value, jobName.value, user.value))
  }

  function Decode(s: string): Option<(Attributes, string)> {
    match CutLine(s)
    case None => None
    case Some(c) =>
      if c.before != UEL + JOB_TEXT then None
      else
        match ReadBlock(c.after)
        case None => None
        case Some(b) =>
          var a, doc := ReadAttributes(Elements(b.lines)), StripBack(b.rest, Trailer());
          if a == None || doc == None then None else Some((a.value, doc.value))
  }

  // ---- The reader recovers what was written ----

  predicate Lacks(s: string, c: char) {
    forall i | 0 <= i < |s| :: s[i] != c
  }

  lemma CutAtIs(before: string, c: char, after: string)
    requires Lacks(before, c)
    ensures CutAt(before + ([c] + after), c) == Some(Cut(before, after))
  {
    IndexOfIs(before, c, [c] + after);
    assert (before + ([c] + after))[|before| + 1..] == after;
  }

  lemma CutLineIs(line: string, rest: string)
    requires Lacks(line, '\r')
    ensures CutLine(line + (CRLF + rest)) == Some(Cut(line, rest))
  {
    assert CRLF + rest == ['\r'] + ("\n" + rest);
    CutAtIs(line, '\r', "\n" + rest);
    assert ("\n" + rest)[1..] == rest;
  }

  predicate OneLine(s: string) {
    Lacks(s, '\r') && Lacks(s, '\n') && Lacks(s, ESC)
  }

  lemma CleanOneLine(s: string)
    requires IsClean(s) || IsName(s) || IsContained(s)
    ensures OneLine(s)
  {
  }

  lemma TagOneLine(depth: nat, tag: string, body: string)
    requires OneLine(tag) && OneLine(body)
    ensures OneLine(Tabs(depth) + ("<" + (tag + (">" + body))))
  {
  }

  lemma LeafOneLine(depth: nat, name: string, syntax: string, text: string)
    requires OneLine(name) && OneLine(syntax) && OneLine(text)
    ensures OneLine(Shown(Leaf(depth, name, syntax, text)))
  {
    TagOneLine(depth, name + syntax, text + ("<" + ("/" + (name + ">"))));
  }

  lemma ShownOneLine(l: Line)
    requires WellShaped(l)
    ensures OneLine(Shown(l))
  {
    match l
    case Tag(depth, body) =>
      CleanOneLine(body);
      TagOneLine(depth, body, "");
    case Leaf(depth, name, syntax, text) =>
      CleanOneLine(name);
      CleanOneLine(syntax);
      CleanOneLine(text);
      LeafOneLine(depth, name, syntax, text);
  }

  function ShownAll(lines: seq<Line>): (r: seq<string>)
    ensures |r| == |lines|
  {
    seq(|lines|, i requires 0 <= i < |lines| => Shown(lines[i]))
  }

  lemma ShownCons(lines: seq<Line>)
    requires lines != []
    ensures ShownAll(lines) == [Shown(lines[0])] + ShownAll(lines[1..])
  {
  }

  lemma StripFrontIs(front: string, s: string)
    ensures StripFront(front + s, front) == Some(s)
  {
  }

  lemma StripBackIs(s: string, back: string)
    ensures StripBack(s + back, back) == Some(s)
  {
  }

  lemma NotEntering(line: string)
    ensures XCPT_START + line != ENTER_TEXT
  {
    assert (XCPT_START + line)[5] == XCPT_START[5] != ENTER_TEXT[5];
  }

  lemma BlockStep(line: string, rest: string)
    requires Lacks(XCPT_START + line, '\r')
    ensures ReadBlock((XCPT_START + line) + (CRLF + rest)) == PrependLine(Some(line), ReadBlock(rest))
  {
    CutLineIs(XCPT_START + line, rest);
    NotEntering(line);
    StripFrontIs(XCPT_START, line);
  }

  lemma StartOneLine()
    ensures OneLine(XCPT_START) && OneLine(ENTER_TEXT)
  {
  }

  lemma BlockEnd(rest: string)
    ensures ReadBlock(ENTER + rest) == Some(Block([], rest))
  {
    StartOneLine();
    assert ENTER + rest == ENTER_TEXT + (CRLF + rest);
    CutLineIs(ENTER_TEXT, rest);
  }

  lemma InstructionStep(l: Line, more: string, rest: string)
    requires WellShaped(l)
    ensures ReadBlock((Instruction(l) + more) + rest) == PrependLine(Some(Shown(l)), ReadBlock(more + rest))
  {
    ShownOneLine(l);
    StartOneLine();
    assert (Instruction(l) + more) + rest == (XCPT_START + Shown(l)) + (CRLF + (more + rest));
    BlockStep(Shown(l), more + rest);
  }

  lemma {:induction false} BlockIs(lines: seq<Line>, rest: string)
    requires AllShaped(lines)
    ensures ReadBlock(Instructions(lines) + (ENTER + rest)) == Some(Block(ShownAll(lines), rest))
  {
    if lines == [] {
      assert "" + (ENTER + rest) == ENTER + rest;
      BlockEnd(rest);
    } else {
      BlockIs(lines[1..], rest);
      InstructionStep(lines[0], Instructions(lines[1..]), ENTER + rest);
      ShownCons(lines);
    }
  }

  lemma FirstTagIs(depth: nat, tag: string, body: string)
    requires Lacks(tag, '>')
    ensures FirstTag(Tabs(depth) + ("<" + (tag + (">" + body)))) == Some(Cut(tag, body))
  {
    CutAtIs(Tabs(depth), '<', tag + (">" + body));
    CutAtIs(tag, '>', body);
  }

  function PartOf(l: Line): Option<Element> {
    match l
    case Tag(_, _) => None
    case Leaf(_, name, _, text) => Some(Element(name, text))
  }

  lemma TagIs(depth: nat, body: string)
    requires IsClean(body)
    ensures ElementOf(Shown(Tag(depth, body))) == None
  {
    FirstTagIs(depth, body, "");
  }

  lemma NameIs(name: string, syntax: string)
    requires IsName(name) && IsSyntax(syntax)
    ensures Lacks(name + syntax, '>') && (name + syntax)[..IndexOf(name + syntax, ' ')] == name
  {
    IndexOfIs(name, ' ', syntax);
  }

  lemma LeafIs(depth: nat, name: string, syntax: string, text: string)
    requires WellShaped(Leaf(depth, name, syntax, text))
    ensures ElementOf(Shown(Leaf(depth, name, syntax, text))) == Some(Element(name, text))
  {
    var end := "/" + (name + ">");
    NameIs(name, syntax);
    FirstTagIs(depth, name + syntax, text + ("<" + end));
    CutAtIs(text, '<', end);
  }

  lemma ElementsAre(lines: seq<Line>)
    requires AllShaped(lines)
    ensures forall i | 0 <= i < |lines| :: Elements(ShownAll(lines))[i] == PartOf(lines[i])
  {
    forall i | 0 <= i < |lines| ensures Elements(ShownAll(lines))[i] == PartOf(lines[i]) {
      match lines[i]
      case Tag(depth, body) => TagIs(depth, body);
      case Leaf(depth, name, syntax, text) => LeafIs(depth, name, syntax, text);
    }
  }

  predicate Named(e: Option<Element>, name: string) {
    e.Some? && e.value.name == name
  }

  lemma {:induction false} FieldIs(es: seq<Option<Element>>, i: nat, name: string)
    requires i < |es| && Named(es[i], name)
    requires forall j | 0 <= j < i :: !Named(es[j], name)
    ensures Field(es, name) == Unescape(es[i].value.text)
  {
    if i > 0 {
      assert !Named(es[0], name);
      FieldIs(es[1..], i - 1, name);
    }
  }

  // ---- Which lines hold which attributes ----

  predicate IsLeaf(l: Line, name: string) {
    l.Leaf? && l.name == name
  }

  predicate Without(lines: seq<Line>, name: string) {
    forall i | 0 <= i < |lines| :: !IsLeaf(lines[i], name)
  }

  // The first element of the name is at the index, with the text.
  predicate HasAt(lines: seq<Line>, i: nat, name: string, text: string) {
    i < |lines| && IsLeaf(lines[i], name) && lines[i].text == text && Without(lines[..i], name)
  }

  ghost predicate Has(lines: seq<Line>, name: string, text: string) {
    exists i: nat :: HasAt(lines, i, name, text)
  }

  lemma HasFirst(p: seq<Line>, q: seq<Line>, name: string, text: string)
    requires Has(p, name, text)
    ensures Has(p + q, name, text)
  {
    var i: nat :| HasAt(p, i, name, text);
    assert (p + q)[..i] == p[..i];
    assert HasAt(p + q, i, name, text);
  }

  lemma HasLater(p: seq<Line>, q: seq<Line>, name: string, text: string)
    requires Without(p, name) && Has(q, name, text)
    ensures Has(p + q, name, text)
  {
    var i: nat :| HasAt(q, i, name, text);
    assert (p + q)[..|p| + i] == p + q[..i];
    assert HasAt(p + q, |p| + i, name, text);
  }

  lemma FieldOf(lines: seq<Line>, name: string, text: string)
    requires AllShaped(lines) && Has(lines, name, text)
    ensures Field(Elements(ShownAll(lines)), name) == Unescape(text)
  {
    var i: nat :| HasAt(lines, i, name, text);
    var es := Elements(ShownAll(lines));
    ElementsAre(lines);
    forall j | 0 <= j < i ensures !Named(es[j], name) {
      assert lines[..i][j] == lines[j];
    }
    FieldIs(es, i, name);
  }

  lemma InkingHas(a: Attributes)
    ensures Has(Inking(a), "color-effects-type", Escape(a.colorMode))
    ensures Has(Inking(a), "copies", Itoa(a.copies))
  {
    assert HasAt(Inking(a), 0, "color-effects-type", Escape(a.colorMode));
    assert HasAt(Inking(a), 1, "copies", Itoa(a.copies));
  }

  lemma FinishingHas(a: Attributes)
    ensures Has(Finishing(a), "sides", Escape(a.sides))
  {
    assert HasAt(Finishing(a), 1, "sides", Escape(a.sides));
  }

  lemma OriginHas(a: Attributes, domain: string)
    ensures Has(Origin(a, domain), "job-name", Escape(a.jobName))
    ensures Has(Origin(a, domain), "job-originating-user-name", Escape(a.user))
    ensures Has(Origin(a, domain), "requesting-user-name", Escape(a.user))
  {
    assert HasAt(Origin(a, domain), 0, "job-name", Escape(a.jobName));
    assert HasAt(Origin(a, domain), 2, "job-originating-user-name", Escape(a.user));
    assert HasAt(Origin(a, domain), 3, "requesting-user-name", Escape(a.user));
  }

  lemma PrologueWithout(name: string)
    ensures Without(Prologue(), name)
  {
  }

  lemma InkingWithout(a: Attributes, name: string)
    requires |name| != 18 && |name| != 6 && |name| != 10
    ensures Without(Inking(a), name)
  {
  }

  lemma MediaWithout(x: string, y: string, name: string)
    requires |name| != 11
    ensures Without(Media(x, y), name)
  {
  }

  lemma FinishingWithout(a: Attributes, name: string)
    requires |name| != 13 && |name| != 5 && |name| != 15
    ensures Without(Finishing(a), name)
  {
  }

  lemma InkingFields(a: Attributes, name: string, text: string)
    requires Has(Inking(a), name, text)
    ensures Has(XpifLines(a), name, text)
  {
    PrologueWithout(name);
    var rest := Media(LETTER_X, LETTER_Y) + (Finishing(a) + Origin(a, USER_DOMAIN));
    HasFirst(Inking(a), rest, name, text);
    HasLater(Prologue(), Inking(a) + rest, name, text);
  }

  lemma LaterFields(a: Attributes, name: string, text: string)
    requires |name| != 18 && |name| != 6 && |name| != 10 && |name| != 11
    requires Has(Finishing(a) + Origin(a, USER_DOMAIN), name, text)
    ensures Has(XpifLines(a), name, text)
  {
    var rest := Finishing(a) + Origin(a, USER_DOMAIN);
    PrologueWithout(name);
    InkingWithout(a, name);
    MediaWithout(LETTER_X, LETTER_Y, name);
    HasLater(Media(LETTER_X, LETTER_Y), rest, name, text);
    HasLater(Inking(a), Media(LETTER_X, LETTER_Y) + rest, name, text);
    HasLater(Prologue(), Inking(a) + (Media(LETTER_X, LETTER_Y) + rest), name, text);
  }

  lemma FinishingFields(a: Attributes, name: string, text: string)
    requires |name| != 18 && |name| != 6 && |name| != 10 && |name| != 11
    requires Has(Finishing(a), name, text)
    ensures Has(XpifLines(a), name, text)
  {
    HasFirst(Finishing(a), Origin(a, USER_DOMAIN), name, text);
    LaterFields(a, name, text);
  }

  lemma OriginFields(a: Attributes, name: string, text: string)
    requires |name| != 18 && |name| != 6 && |name| != 10 && |name| != 11
    requires |name| != 13 && |name| != 5 && |name| != 15
    requires Has(Origin(a, USER_DOMAIN), name, text)
    ensures Has(XpifLines(a), name, text)
  {
    FinishingWithout(a, name);
    HasLater(Finishing(a), Origin(a, USER_DOMAIN), name, text);
    LaterFields(a, name, text);
  }

  // The elements of the ticket's lines.
  function TicketElements(a: Attributes): seq<Option<Element>> {
    Elements(ShownAll(XpifLines(a)))
  }

  lemma EscapedField(a: Attributes, name: string, raw: string)
    requires Has(XpifLines(a), name, Escape(raw))
    ensures Field(TicketElements(a), name) == Some(Sanitize(raw))
  {
    LinesShaped(a);
    FieldOf(XpifLines(a), name, Escape(raw));
    UnescapeInvertsEscape(raw);
  }

  lemma ModeField(a: Attributes)
    ensures Field(TicketElements(a), "color-effects-type") == Some(Sanitize(a.colorMode))
  {
    InkingHas(a);
    InkingFields(a, "color-effects-type", Escape(a.colorMode));
    EscapedField(a, "color-effects-type", a.colorMode);
  }

  lemma CopiesField(a: Attributes)
    ensures Field(TicketElements(a), "copies") == Some(Itoa(a.copies))
  {
    InkingHas(a);
    InkingFields(a, "copies", Itoa(a.copies));
    LinesShaped(a);
    FieldOf(XpifLines(a), "copies", Itoa(a.copies));
    ItoaContained(a.copies);
    PlainStays(Itoa(a.copies));
  }

  lemma SidesField(a: Attributes)
    ensures Field(TicketElements(a), "sides") == Some(Sanitize(a.sides))
  {
    FinishingHas(a);
    FinishingFields(a, "sides", Escape(a.sides));
    EscapedField(a, "sides", a.sides);
  }

  lemma OriginField(a: Attributes, name: string, raw: string)
    requires (|name| == 8 || |name| == 25 || |name| == 20) && Has(Origin(a, USER_DOMAIN), name, Escape(raw))
    ensures Field(TicketElements(a), name) == Some(Sanitize(raw))
  {
    OriginFields(a, name, Escape(raw));
    EscapedField(a, name, raw);
  }

  // ---- Round trips ----

  // The attributes as XML can carry them.
  function Carried(a: Attributes): Attributes {
    Attributes(a.copies, Sanitize(a.sides), Sanitize(a.colorMode), Sanitize(a.jobName), Sanitize(a.user))
  }

  lemma ReadIs(es: seq<Option<Element>>, a: Attributes)
    requires Field(es, "color-effects-type") == Some(a.colorMode) && Field(es, "copies") == Some(Itoa(a.copies))
    requires Field(es, "sides") == Some(a.sides) && Field(es, "job-name") == Some(a.jobName)
    requires Field(es, "job-originating-user-name") == Field(es, "requesting-user-name") == Some(a.user)
    ensures ReadAttributes(es) == Some(a)
  {
    AtoiInvertsItoa(a.copies);
  }

  lemma UserFields(a: Attributes)
    ensures Field(TicketElements(a), "job-name") == Some(Sanitize(a.jobName))
    ensures Field(TicketElements(a), "job-originating-user-name") == Some(Sanitize(a.user))
    ensures Field(TicketElements(a), "requesting-user-name") == Some(Sanitize(a.user))
  {
    OriginHas(a, USER_DOMAIN);
    OriginField(a, "job-name", a.jobName);
    OriginField(a, "job-originating-user-name", a.user);
    OriginField(a, "requesting-user-name", a.user);
  }

  lemma AttributesAre(a: Attributes)
    ensures ReadAttributes(TicketElements(a)) == Some(Carried(a))
  {
    ModeField(a);
    CopiesField(a);
    SidesField(a);
    UserFields(a);
    ReadIs(TicketElements(a), Carried(a));
  }

  lemma StreamParts(uel: string, job: string, end: string, lines: string, enter: string, rest: string)
    ensures (uel + ((job + end) + (lines + enter))) + rest == (uel + job) + (end + (lines + (enter + rest)))
  {
  }

  lemma FirstLine()
    ensures Lacks(UEL + JOB_TEXT, '\r')
  {
  }

  lemma StreamStart(a: Attributes, doc: string)
    ensures CutLine(Stream(a, doc)) ==
      Some(Cut(UEL + JOB_TEXT, Instructions(XpifLines(a)) + (ENTER + (doc + Trailer()))))
  {
    var lines := Instructions(XpifLines(a));
    StreamParts(UEL, JOB_TEXT, CRLF, lines, ENTER, doc + Trailer());
    FirstLine();
    CutLineIs(UEL + JOB_TEXT, lines + (ENTER + (doc + Trailer())));
  }

  /** The reader recovers the document, byte for byte, and the attributes as XML can carry them: for every
      document, even one that contains the exit sequence or a header of its own, and all attribute texts. */
  lemma StreamRoundTrip(a: Attributes, doc: string)
    ensures Decode(Stream(a, doc)) == Some((Carried(a), doc))
  {
    StreamStart(a, doc);
    LinesShaped(a);
    BlockIs(XpifLines(a), doc + Trailer());
    AttributesAre(a);
    StripBackIs(doc, Trailer());
  }

  /** Attributes made of legal characters come back as they were, and no others do. */
  lemma CarriedExactly(a: Attributes)
    ensures Carried(a) == a <==>
      IsXmlText(a.sides) && IsXmlText(a.colorMode) && IsXmlText(a.jobName) && IsXmlText(a.user)
  {
    LegalExactly(a.sides);
    LegalExactly(a.colorMode);
    LegalExactly(a.jobName);
    LegalExactly(a.user);
  }

  // ---- One exit sequence ----

  lemma InstructionLacks(l: Line)
    requires WellShaped(l)
    ensures Lacks(Instruction(l), ESC)
  {
    ShownOneLine(l);
    StartOneLine();
    assert Lacks(CRLF, ESC);
  }

  lemma {:induction false} InstructionsLack(lines: seq<Line>)
    requires AllShaped(lines)
    ensures Lacks(Instructions(lines), ESC)
  {
    if lines != [] {
      InstructionLacks(lines[0]);
      InstructionsLack(lines[1..]);
    }
  }

  lemma HeaderLacks()
    ensures Lacks(UEL[1..], ESC) && Lacks(JOB, ESC) && Lacks(ENTER, ESC) && UEL == [ESC] + UEL[1..]
  {
  }

  lemma OneFirst(first: string, a: string, b: string, c: string)
    requires first != "" && first[0] == ESC
    requires Lacks(first[1..], ESC) && Lacks(a, ESC) && Lacks(b, ESC) && Lacks(c, ESC)
    ensures var s := first + (a + (b + c)); s[0] == ESC && Lacks(s[1..], ESC)
  {
  }

  /** The header holds one escape character, its first: whatever the attributes hold, the exit
      sequence appears once before the document. */
  lemma OneEscape(a: Attributes)
    ensures Header(a) != "" && Header(a)[0] == ESC && Lacks(Header(a)[1..], ESC)
  {
    LinesShaped(a);
    InstructionsLack(XpifLines(a));
    HeaderLacks();
    OneFirst(UEL, JOB, Instructions(XpifLines(a)), ENTER);
  }

  // ---- From the job and back ----

  datatype Settings = Settings(id: int, copies: int, duplex: bool, color: bool, user: string)

  // What a printer needs to know of a job, from the attributes.
  function SettingsOf(a: Attributes): Option<Settings> {
    match StripFront(a.jobName, JOB_PREFIX)
    case None => None
    case Some(number) =>
      if Atoi(number) == None then None
      else Some(Settings(Atoi(number).value, a.copies, a.sides == TWO_SIDED, a.colorMode == COLOR, a.user))
  }

  predicate IsPrintable(s: string) {
    forall i | 0 <= i < |s| :: ' ' <= s[i] <= '~'
  }

  lemma {:induction false} PrintableStays(s: string)
    requires IsPrintable(s)
    ensures Sanitize(s) == s
  {
    if s != "" {
      PrintableStays(s[1..]);
      assert s == s[..1] + s[1..];
    }
  }

  lemma OptionsPrintable()
    ensures IsPrintable(ONE_SIDED) && IsPrintable(TWO_SIDED) && IsPrintable(COLOR) && IsPrintable(MONOCHROME)
  {
  }

  lemma NumberPrintable(id: int)
    ensures IsPrintable(JOB_PREFIX + Itoa(id))
  {
  }

  lemma JobPrintable(id: int, j: Job)
    ensures var a := FromJob(id, j); IsPrintable(a.sides) && IsPrintable(a.colorMode) && IsPrintable(a.jobName)
  {
    OptionsPrintable();
    NumberPrintable(id);
  }

  lemma OnlyUserChanges(a: Attributes)
    requires IsPrintable(a.sides) && IsPrintable(a.colorMode) && IsPrintable(a.jobName)
    ensures Carried(a) == a.(user := Sanitize(a.user))
  {
    PrintableStays(a.sides);
    PrintableStays(a.colorMode);
    PrintableStays(a.jobName);
  }

  lemma SettingsRoundTrip(id: int, j: Job, user: string)
    ensures SettingsOf(FromJob(id, j).(user := user)) == Some(Settings(id, j.copies, j.duplex, j.color, user))
  {
    StripFrontIs(JOB_PREFIX, Itoa(id));
    AtoiInvertsItoa(id);
  }

  // The elements a reader of the stream finds in its header.
  function HeaderElements(s: string): seq<Option<Element>> {
    match CutLine(s)
    case None => []
    case Some(c) =>
      match ReadBlock(c.after)
      case None => []
      case Some(b) => Elements(b.lines)
  }

  lemma HeaderIs(a: Attributes, doc: string)
    ensures HeaderElements(Stream(a, doc)) == TicketElements(a)
  {
    StreamStart(a, doc);
    LinesShaped(a);
    BlockIs(XpifLines(a), doc + Trailer());
  }

  lemma PrintableField(a: Attributes, name: string, raw: string)
    requires Has(XpifLines(a), name, Escape(raw)) && IsPrintable(raw)
    ensures Field(TicketElements(a), name) == Some(raw)
  {
    EscapedField(a, name, raw);
    PrintableStays(raw);
  }

  lemma MediaHas(x: string, y: string)
    ensures Has(Media(x, y), "x-dimension", Escape(x)) && Has(Media(x, y), "y-dimension", Escape(y))
  {
    assert HasAt(Media(x, y), 2, "x-dimension", Escape(x));
    assert HasAt(Media(x, y), 3, "y-dimension", Escape(y));
  }

  lemma MediaFields(a: Attributes, x: string, y: string, name: string, text: string)
    requires x == LETTER_X && y == LETTER_Y && |name| == 11 && Has(Media(x, y), name, text)
    ensures Has(XpifLines(a), name, text)
  {
    var rest := Finishing(a) + Origin(a, USER_DOMAIN);
    PrologueWithout(name);
    InkingWithout(a, name);
    HasFirst(Media(x, y), rest, name, text);
    HasLater(Inking(a), Media(x, y) + rest, name, text);
    HasLater(Prologue(), Inking(a) + (Media(x, y) + rest), name, text);
  }

  lemma PaperField(a: Attributes, x: string, y: string, name: string, raw: string)
    requires x == LETTER_X && y == LETTER_Y && |name| == 11 && Has(Media(x, y), name, Escape(raw)) && IsPrintable(raw)
    ensures Field(TicketElements(a), name) == Some(raw)
  {
    MediaFields(a, x, y, name, Escape(raw));
    PrintableField(a, name, raw);
  }

  lemma PaperFields(a: Attributes, x: string, y: string)
    requires x == LETTER_X && y == LETTER_Y && IsPrintable(x) && IsPrintable(y)
    ensures Field(TicketElements(a), "x-dimension") == Some(x)
    ensures Field(TicketElements(a), "y-dimension") == Some(y)
  {
    MediaHas(x, y);
    PaperField(a, x, y, "x-dimension", x);
    PaperField(a, x, y, "y-dimension", y);
  }

  lemma LetterPrintable()
    ensures IsPrintable(LETTER_X) && IsPrintable(LETTER_Y)
  {
  }

  predicate IsPlain(s: string) {
    forall i | 0 <= i < |s| :: s[i] != '<' && s[i] != '&'
  }

  lemma PlainStays(text: string)
    requires IsPlain(text)
    ensures Unescape(text) == Some(text)
  {
    PlainText(text, "");
    assert text + "" == text;
  }

  lemma PlainField(a: Attributes, name: string, text: string)
    requires Has(XpifLines(a), name, text) && IsPlain(text)
    ensures Field(TicketElements(a), name) == Some(text)
  {
    LinesShaped(a);
    FieldOf(XpifLines(a), name, text);
    PlainStays(text);
  }

  lemma FixedPlain()
    ensures IsPlain("none") && IsPlain("collated") && IsPlain("application/pdf")
  {
  }

  lemma SheetsHas(a: Attributes)
    ensures Has(Inking(a), "job-sheets", "none")
  {
    assert HasAt(Inking(a), 2, "job-sheets", "none");
  }

  lemma CollateHas(a: Attributes)
    ensures Has(Finishing(a), "sheet-collate", "collated")
  {
    assert HasAt(Finishing(a), 0, "sheet-collate", "collated");
  }

  lemma FormatHas(a: Attributes)
    ensures Has(Finishing(a), "document-format", "application/pdf")
  {
    assert HasAt(Finishing(a), 4, "document-format", "application/pdf");
  }

  lemma FinishingField(a: Attributes, name: string, text: string)
    requires (|name| == 13 || |name| == 15) && Has(Finishing(a), name, text) && IsPlain(text)
    ensures Field(TicketElements(a), name) == Some(text)
  {
    FinishingFields(a, name, text);
    PlainField(a, name, text);
  }

  lemma InkingField(a: Attributes, name: string, text: string)
    requires Has(Inking(a), name, text) && IsPlain(text)
    ensures Field(TicketElements(a), name) == Some(text)
  {
    InkingFields(a, name, text);
    PlainField(a, name, text);
  }

  lemma FixedFields(a: Attributes)
    ensures Field(TicketElements(a), "job-sheets") == Some("none")
    ensures Field(TicketElements(a), "sheet-collate") == Some("collated")
    ensures Field(TicketElements(a), "document-format") == Some("application/pdf")
  {
    FixedPlain();
    SheetsHas(a);
    InkingField(a, "job-sheets", "none");
    CollateHas(a);
    FinishingField(a, "sheet-collate", "collated");
    FormatHas(a);
    FinishingField(a, "document-format", "application/pdf");
  }

  lemma DomainField(a: Attributes, domain: string)
    requires domain == USER_DOMAIN && IsPrintable(domain)
    ensures Field(TicketElements(a), "job-originating-user-domain") == Some(domain)
  {
    assert HasAt(Origin(a, domain), 1, "job-originating-user-domain", Escape(domain));
    OriginFields(a, "job-originating-user-domain", Escape(domain));
    PrintableField(a, "job-originating-user-domain", domain);
  }

  lemma DomainPrintable()
    ensures IsPrintable(USER_DOMAIN)
  {
  }

  lemma OptionFields(id: int, j: Job)
    ensures var es := TicketElements(FromJob(id, j));
      && Field(es, "color-effects-type") == Some(if j.color then "color" else "monochrome-grayscale")
      && Field(es, "sides") == Some(if j.duplex then "two-sided-long-edge" else "one-sided")
  {
    var a := FromJob(id, j);
    JobPrintable(id, j);
    ModeField(a);
    SidesField(a);
    PrintableStays(a.colorMode);
    PrintableStays(a.sides);
  }

  lemma PersonFields(id: int, j: Job)
    ensures var es := TicketElements(FromJob(id, j));
      && Field(es, "job-name") == Some("piping-job-" + Itoa(id))
      && Field(es, "job-originating-user-name") == Field(es, "requesting-user-name") == Some(Sanitize(j.user))
  {
    var a := FromJob(id, j);
    JobPrintable(id, j);
    UserFields(a);
    PrintableStays(a.jobName);
  }

  // What the elements of a job's ticket say, in words.
  ghost predicate Says(es: seq<Option<Element>>, id: int, j: Job) {
    && Field(es, "color-effects-type") == Some(if j.color then "color" else "monochrome-grayscale")
    && Field(es, "copies") == Some(Itoa(j.copies))
    && Field(es, "job-sheets") == Some("none")
    && Field(es, "x-dimension") == Some("21590")
    && Field(es, "y-dimension") == Some("27940")
    && Field(es, "sheet-collate") == Some("collated")
    && Field(es, "sides") == Some(if j.duplex then "two-sided-long-edge" else "one-sided")
    && Field(es, "document-format") == Some("application/pdf")
    && Field(es, "job-name") == Some("piping-job-" + Itoa(id))
    && Field(es, "job-originating-user-domain") == Some("CAMPUS")
    && Field(es, "job-originating-user-name") == Some(Sanitize(j.user))
    && Field(es, "requesting-user-name") == Some(Sanitize(j.user))
  }

  lemma HeaderSays(id: int, j: Job, doc: string)
    ensures Says(HeaderElements(Stream(FromJob(id, j), doc)), id, j)
  {
    HeaderIs(FromJob(id, j), doc);
    OptionFields(id, j);
    PersonFields(id, j);
    CopiesField(FromJob(id, j));
    LetterPrintable();
    PaperFields(FromJob(id, j), LETTER_X, LETTER_Y);
    FixedFields(FromJob(id, j));
    DomainPrintable();
    DomainField(FromJob(id, j), USER_DOMAIN);
  }

  /** Through the ticket and back: the job's id, copies, duplex and color, its user up to what XML can carry,
      and the document; and the header says so in the printer's own words. */
  lemma JobRoundTrip(id: int, j: Job, doc: string)
    ensures var r := Decode(Stream(FromJob(id, j), doc));
      && r.Some? && r.value.1 == doc
      && SettingsOf(r.value.0) == Some(Settings(id, j.copies, j.duplex, j.color, Sanitize(j.user)))
    ensures Says(HeaderElements(Stream(FromJob(id, j), doc)), id, j)
    ensures Sanitize(j.user) == j.user <==> IsXmlText(j.user)
  {
    StreamRoundTrip(FromJob(id, j), doc);
    JobPrintable(id, j);
    OnlyUserChanges(FromJob(id, j));
    SettingsRoundTrip(id, j, Sanitize(j.user));
    HeaderSays(id, j, doc);
    LegalExactly(j.user);
  }

  // ---- The stream, in words ----

  lemma FrameSpelled(lines: string, doc: string)
    ensures (UEL + (JOB + (lines + ENTER))) + (doc + Trailer()) ==
      "\U{1B}%-12345X@PJL JOB\r\n" + (lines + ("@PJL ENTER LANGUAGE=PDF\r\n" +
        (doc + "\U{1B}%-12345X@PJL EOJ\r\n\U{1B}%-12345X")))
  {
    assert UEL + JOB == "\U{1B}%-12345X@PJL JOB\r\n";
    assert ENTER == "@PJL ENTER LANGUAGE=PDF\r\n";
    assert Trailer() == "\U{1B}%-12345X@PJL EOJ\r\n\U{1B}%-12345X";
  }

  /** The stream begins with the exit sequence and the job line, enters PDF after the instructions, and ends after
      the document with the end of the job and the exit sequence. */
  lemma StreamSpelled(a: Attributes, doc: string)
    ensures Stream(a, doc) ==
      "\U{1B}%-12345X@PJL JOB\r\n" + (Instructions(XpifLines(a)) + ("@PJL ENTER LANGUAGE=PDF\r\n" +
        (doc + "\U{1B}%-12345X@PJL EOJ\r\n\U{1B}%-12345X")))
  {
    FrameSpelled(Instructions(XpifLines(a)), doc);
  }

  /** Every instruction is one line that begins with the command that carries the ticket. */
  lemma InstructionSpelled(l: Line)
    ensures Instruction(l) == "@PJL XCPT " + (Shown(l) + "\r\n")
  {
  }

  /** A user name with a control character in it is altered: U+0001 comes back as U+FFFD. */
  lemma ControlCharacterLost()
    ensures Sanitize("\U{1}") == REPLACEMENT && !IsXmlText("\U{1}")
  {
    LegalExactly("\U{1}");
    assert DecodeRune("\U{1}") == Rune(1, 1);
  }

  // A printer that reads the stream learns these settings, and prints this document.
  ghost predicate Tells(stream: string, s: Settings, doc: string) {
    var r := Decode(stream);
    r.Some? && r.value.1 == doc && SettingsOf(r.value.0) == Some(s)
  }

  method Ticketed(id: int, j: Job, doc: string) returns (stream: string)
    ensures Tells(stream, Settings(id, j.copies, j.duplex, j.color, Sanitize(j.user)), doc)
    ensures Says(HeaderElements(stream), id, j)
  {
    JobRoundTrip(id, j, doc);
    stream := XCPT(FromJob(id, j), doc);
  }
}

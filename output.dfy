/**
 * The output sinks: their texts (`getContentLength`, the log line, the serving line, the
 * TUI title and description) and the sink state the request pipeline feeds.  A rendered
 * style is kept as a piece of its own so that colours need no modelling; `PlainText`
 * reads a line with the colours taken away.
 */
module Output {
  import opened GoText
  import opened Styles
  import opened History
  import opened BuildInfo

  datatype Piece = Text(s: string) | Status(style: Style) | Secondary(s: string)

  type Line = seq<Piece>

  function PieceText(p: Piece): string {
    match p
    case Text(s) => s
    case Status(style) => style.text
    case Secondary(s) => s
  }

  function PlainText(line: Line): string
    decreases |line|
  {
    if line == [] then "" else PieceText(line[0]) + PlainText(line[1..])
  }

  lemma PlainTextPair(a: Piece, b: Piece)
    ensures PlainText([a, b]) == PieceText(a) + PieceText(b)
  {
    assert [a, b][1..] == [b];
    assert [b][1..] == [];
    assert PlainText([b]) == PieceText(b) + "";
    assert PieceText(b) + "" == PieceText(b);
  }

  lemma PlainTextTriple(a: Piece, b: Piece, c: Piece)
    ensures PlainText([a, b, c]) == PieceText(a) + PieceText(b) + PieceText(c)
  {
    assert [a, b, c][1..] == [b, c];
    PlainTextPair(b, c);
  }

  /** `getContentLength`: nothing for 0, else the byte count in parentheses */
  function GetContentLength(value: uint64): (s: string)
    ensures value == 0 <==> s == ""
    ensures s != "" ==> |s| > 8 && s[0] == '(' && s[|s| - 7..] == " bytes)"
  {
    if value != 0 then "(" + NatToString(value) + " bytes)" else ""
  }

  /** The byte count can be read back from the text */
  lemma ContentLengthTextRoundTrip(n: uint64)
    requires n != 0
    ensures var s := GetContentLength(n);
      AllDigits(s[1..|s| - 7]) && DecimalValue(s[1..|s| - 7]) == n
  {
    var s := GetContentLength(n);
    assert s[1..|s| - 7] == NatToString(n);
    NatToStringRoundTrip(n);
  }

  lemma NoTabInDecimal(n: int)
    ensures '\t' !in IntToString(n)
    ensures n >= 0 ==> '\t' !in NatToString(n)
  {
    IntToStringChars(n);
  }

  lemma NoTabInContentLength(n: uint64)
    ensures '\t' !in GetContentLength(n)
  {
    if n != 0 {
      NoTabInDecimal(n);
      var d := NatToString(n);
      var s := GetContentLength(n);
      assert s == "(" + d + " bytes)";
      assert forall i :: 1 <= i <= |d| ==> s[i] == d[i - 1];
      assert forall i :: |d| + 1 <= i < |s| ==> s[i] == " bytes)"[i - |d| - 1];
    }
  }

  /**
   * The log line of `logOutput.Write` (both generations): remote address, duration, status
   * and method, each followed by a tab, then the URL, a space and the length text.
   */
  function LogLine(r: Request, duration: string): (line: Line)
    ensures |line| == 3
    ensures forall i :: 0 <= i < |line| ==> (line[i].Status? <==> i == 1)
    ensures line[1].style == GetStyle(r.status)
    ensures |r.remoteAddress| <= |line[0].s| && line[0].s[..|r.remoteAddress|] == r.remoteAddress
  {
    [ Text(r.remoteAddress + "\t" + duration + "\t"),
      Status(GetStyle(r.status)),
      Text("\t" + r.verb + "\t" + (r.url + " " + GetContentLength(r.contentLength))) ]
  }

  /** Read without colours and cut at the tabs, the log line gives back its five fields */
  lemma LogLineFields(r: Request, duration: string)
    requires '\t' !in r.remoteAddress && '\t' !in duration && '\t' !in r.verb && '\t' !in r.url
    ensures Split(PlainText(LogLine(r, duration)), '\t') ==
      [r.remoteAddress, duration, IntToString(r.status), r.verb, r.url + " " + GetContentLength(r.contentLength)]
  {
    var cl := GetContentLength(r.contentLength);
    var last := r.url + " " + cl;
    var fields := [r.remoteAddress, duration, IntToString(r.status), r.verb, last];
    LogLineIsJoin(r, duration);
    NoTabInDecimal(r.status);
    NoTabInLast(r.url, cl, r.contentLength);
    SplitJoin(fields, '\t');
  }

  lemma NoTabInLast(url: string, cl: string, n: uint64)
    requires '\t' !in url && cl == GetContentLength(n)
    ensures '\t' !in url + " " + cl
  {
    NoTabInContentLength(n);
    var last := url + " " + cl;
    assert forall i :: 0 <= i < |last| ==> last[i] == (if i < |url| then url[i] else if i == |url| then ' ' else cl[i - |url| - 1]);
  }

  lemma JoinFive(a: string, b: string, c: string, d: string, e: string, sep: string)
    ensures Join([a, b, c, d, e], sep) == a + sep + b + sep + c + sep + d + sep + e
  {
    var xs := [a, b, c, d, e];
    assert xs[1..] == [b, c, d, e];
    assert xs[1..][1..] == [c, d, e];
    assert xs[1..][1..][1..] == [d, e];
    assert xs[1..][1..][1..][1..] == [e];
    assert Join([d, e], sep) == d + sep + e;
    assert Join([c, d, e], sep) == c + sep + (d + sep + e);
    assert Join([b, c, d, e], sep) == b + sep + (c + sep + (d + sep + e));
    assert Join(xs, sep) == a + sep + (b + sep + (c + sep + (d + sep + e)));
  }

  lemma RegroupFive(a: string, b: string, c: string, d: string, e: string, t: string)
    ensures (a + t + b + t) + c + (t + d + t + e) == a + t + b + t + c + t + d + t + e
  {
  }

  lemma LogLineIsJoin(r: Request, duration: string)
    ensures PlainText(LogLine(r, duration)) ==
      Join([r.remoteAddress, duration, IntToString(r.status), r.verb, r.url + " " + GetContentLength(r.contentLength)], "\t")
  {
    var last := r.url + " " + GetContentLength(r.contentLength);
    var status := IntToString(r.status);
    var st := GetStyle(r.status);
    var x := r.remoteAddress + "\t" + duration + "\t";
    var y := "\t" + r.verb + "\t" + last;
    assert LogLine(r, duration) == [Text(x), Status(st), Text(y)];
    PlainTextTriple(Text(x), Status(st), Text(y));
    RegroupFive(r.remoteAddress, duration, status, r.verb, last, "\t");
    JoinFive(r.remoteAddress, duration, status, r.verb, last, "\t");
  }

  /** `logOutput.Init`: "Serving <location> at <addresses joined by ", ">" */
  function ServingLine(location: string, addresses: seq<string>): (line: string)
    ensures |line| == 12 + |location| + |Join(addresses, ", ")|
    ensures line[..8] == "Serving " && line[8..8 + |location|] == location
    ensures line[8 + |location|..12 + |location|] == " at "
    ensures line[|line| - |Join(addresses, ", ")|..] == Join(addresses, ", ")
  {
    "Serving " + location + " at " + Join(addresses, ", ")
  }

  /** The title of the servant generation's TUI list: version, short commit, then the serving line */
  function ServantTuiInfo(info: BuildInfo, location: string, addresses: seq<string>): (title: string)
    ensures |ServingLine(location, addresses)| < |title|
    ensures title[..8] == "servant "
    ensures title[|title| - |ServingLine(location, addresses)|..] == ServingLine(location, addresses)
  {
    "servant " + info.version + " (" + info.GetShortCommit() + ")\n" + ServingLine(location, addresses)
  }

  /** The title of the serve generation's TUI list, around its serving line */
  function ServeTuiInfo(info: BuildInfo, servingInfo: string): (title: string)
    ensures |servingInfo| + 6 < |title|
    ensures title[..6] == "serve "
    ensures title[|title| - |servingInfo|..] == servingInfo
  {
    "serve " + info.version + " (" + info.GetShortCommit() + ") - TUI [experimental]\n" + servingInfo
  }

  /** With one address the serving line names just that address */
  lemma ServingLineSingle(location: string, address: string)
    ensures ServingLine(location, [address]) == "Serving " + location + " at " + address
  {
  }

  /** With two addresses they appear in order, separated by ", " */
  lemma ServingLinePair(location: string, first: string, second: string)
    ensures ServingLine(location, [first, second]) == "Serving " + location + " at " + first + ", " + second
  {
    assert Join([first, second], ", ") == first + ", " + Join([second], ", ");
  }

  /** `tuiOutput.Write` title, servant generation: method, URL, then "from <remote> at <clock>" */
  function ServantTuiTitle(r: Request, clock: string): (line: Line)
    ensures |line| == 2 && line[0].Text? && line[1].Secondary?
    ensures PlainText(line) == r.verb + " " + r.url + " from " + r.remoteAddress + " at " + clock
  {
    PlainTextPair(Text(r.verb + " " + r.url + " "), Secondary("from " + r.remoteAddress + " at " + clock));
    [Text(r.verb + " " + r.url + " "), Secondary("from " + r.remoteAddress + " at " + clock)]
  }

  /** `tuiOutput.Write` title, serve generation: method, URL, then "from <remote>" */
  function ServeTuiTitle(r: Request): (line: Line)
    ensures |line| == 2 && line[0].Text? && line[1].Secondary?
  {
    [Text(r.verb + " " + r.url + " "), Secondary("from " + r.remoteAddress)]
  }

  /** `tuiOutput.Write` description (both generations): status, duration, content type and length */
  function TuiDescription(r: Request, duration: string): (line: Line)
    ensures |line| == 3 && line[0] == Status(GetStyle(r.status)) && line[2].Secondary?
    ensures forall i :: 0 <= i < |line| ==> (line[i].Status? <==> i == 0)
  {
    [Status(GetStyle(r.status)), Text(" " + duration + " "), Secondary(r.contentType + " " + GetContentLength(r.contentLength))]
  }

  /** The description starts with the status text and then the duration */
  lemma TuiDescriptionStart(r: Request, duration: string)
    ensures var d := PlainText(TuiDescription(r, duration));
      var head := IntToString(r.status) + " " + duration + " ";
      |head| <= |d| && d[..|head|] == head
  {
    var line := TuiDescription(r, duration);
    PlainTextTriple(line[0], line[1], line[2]);
    var head := IntToString(r.status) + " " + duration + " ";
    assert PlainText(line) == head + (r.contentType + " " + GetContentLength(r.contentLength));
  }

  /** The serve generation's title reads "<method> <url> from <remote>" */
  lemma ServeTuiTitleText(r: Request)
    ensures PlainText(ServeTuiTitle(r)) == r.verb + " " + r.url + " from " + r.remoteAddress
  {
    var line := ServeTuiTitle(r);
    PlainTextPair(line[0], line[1]);
  }

  datatype OutputKind = LogOutput | TuiOutput

  /** What `Init` shows: the log line, or the TUI list title (servant generation) */
  function InitText(kind: OutputKind, info: BuildInfo, location: string, addresses: seq<string>): (text: string)
    ensures 12 <= |ServingLine(location, addresses)| <= |text|
    ensures kind == LogOutput ==> text[..8] == "Serving "
    ensures kind == TuiOutput ==> text[..8] == "servant "
    ensures text[|text| - |ServingLine(location, addresses)|..] == ServingLine(location, addresses)
  {
    match kind
    case LogOutput => ServingLine(location, addresses)
    case TuiOutput => ServantTuiInfo(info, location, addresses)
  }

  /**
   * An output sink: what `Init` announced and the records handed to `Write`, in the order
   * the handlers wrote them.  Rendering a record is `LogLine` for the log sink and
   * `ServantTuiTitle`/`ServeTuiTitle` with `TuiDescription` for the TUI sink.
   */
  class Sink {
    const kind: OutputKind
    var announced: seq<string>
    var written: seq<Request>

    constructor (kind: OutputKind)
      ensures this.kind == kind && announced == [] && written == []
    {
      this.kind := kind;
      announced, written := [], [];
    }

    /** `Init`: the log sink logs the serving line; the TUI sink builds its model with the title */
    method Init(info: BuildInfo, location: string, addresses: seq<string>)
      modifies this
      ensures announced == old(announced) + [InitText(kind, info, location, addresses)]
      ensures written == old(written)
    {
      announced := announced + [InitText(kind, info, location, addresses)];
    }

    /** The serve generation, which builds its own texts, hands the sink the announcement */
    method Announce(text: string)
      modifies this
      ensures announced == old(announced) + [text]
      ensures written == old(written)
    {
      announced := announced + [text];
    }

    method Write(request: Request)
      modifies this
      ensures written == old(written) + [request]
      ensures announced == old(announced)
    {
      written := written + [request];
    }
  }
}

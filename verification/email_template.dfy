/**
 * The incident e-mail: HTML escaping, the badge tones for status and severity, the
 * subject line, the attempt and step lists, and the CWE block. The fixed markup of the
 * message (styles, layout) is not modelled: the body is the record of values that fill
 * it, each as the HTML text the template inserts.
 */
module EmailTemplate {
  import opened Prelude
  import KbLoader

  // ===========================================================================
  // _escape_html
  // ===========================================================================

  /** s.replace(c, rep) for a single character `c`. */
  function ReplaceChar(s: string, c: char, rep: string): (r: string)
  {
    if s == [] then []
    else (if s[0] == c then rep else [s[0]]) + ReplaceChar(s[1..], c, rep)
  }

  /** _escape_html: None gives ""; otherwise the five replacements, "&" first. */
  function EscapeHtml(v: Option<string>): (r: string)
    ensures v.None? ==> r == ""
  {
    match v
    case None => ""
    case Some(s) =>
      ReplaceChar(ReplaceChar(ReplaceChar(ReplaceChar(ReplaceChar(
        s, '&', "&amp;"), '<', "&lt;"), '>', "&gt;"), '"', "&quot;"), '\'', "&#39;")
  }

  /** The reference escaping, one character at a time. */
  function EscapeChar(c: char): string {
    if c == '&' then "&amp;"
    else if c == '<' then "&lt;"
    else if c == '>' then "&gt;"
    else if c == '"' then "&quot;"
    else if c == '\'' then "&#39;"
    else [c]
  }

  function Escaped(s: string): string {
    if s == [] then [] else EscapeChar(s[0]) + Escaped(s[1..])
  }

  lemma {:induction false} ReplaceCharAppend(a: string, b: string, c: char, rep: string)
    ensures ReplaceChar(a + b, c, rep) == ReplaceChar(a, c, rep) + ReplaceChar(b, c, rep)
  {
    if a == [] {
      assert a + b == b;
    } else {
      assert (a + b)[1..] == a[1..] + b;
      ReplaceCharAppend(a[1..], b, c, rep);
    }
  }

  lemma ReplaceCharSingle(d: char, c: char, rep: string)
    ensures ReplaceChar([d], c, rep) == if d == c then rep else [d]
  {
    assert [d][1..] == [];
  }

  lemma {:induction false} ReplaceCharAbsent(s: string, c: char, rep: string)
    requires forall i :: 0 <= i < |s| ==> s[i] != c
    ensures ReplaceChar(s, c, rep) == s
  {
    if s != [] {
      ReplaceCharAbsent(s[1..], c, rep);
    }
  }

  /** The steps of the chain after the first leave text without markup characters alone. */
  lemma LaterStepsKeep(s: string)
    requires forall i :: 0 <= i < |s| ==> !IsMarkupChar(s[i])
    ensures ReplaceChar(ReplaceChar(ReplaceChar(ReplaceChar(
        s, '<', "&lt;"), '>', "&gt;"), '"', "&quot;"), '\'', "&#39;") == s
  {
    ReplaceCharAbsent(s, '<', "&lt;");
    ReplaceCharAbsent(s, '>', "&gt;");
    ReplaceCharAbsent(s, '"', "&quot;");
    ReplaceCharAbsent(s, '\'', "&#39;");
  }

  /** The replace chain turns one character into its entity (or itself). */
  lemma EscapeOneChar(c: char)
    ensures EscapeHtml(Some([c])) == EscapeChar(c)
  {
    ReplaceCharSingle(c, '&', "&amp;");
    var s1 := ReplaceChar([c], '&', "&amp;");
    if c == '&' {
      assert s1 == "&amp;";
      LaterStepsKeep("&amp;");
    } else if c == '<' {
      ReplaceCharSingle(c, '<', "&lt;");
      ReplaceCharAbsent("&lt;", '>', "&gt;");
      ReplaceCharAbsent("&lt;", '"', "&quot;");
      ReplaceCharAbsent("&lt;", '\'', "&#39;");
    } else {
      ReplaceCharSingle(c, '<', "&lt;");
      ReplaceCharSingle(c, '>', "&gt;");
      if c == '>' {
        ReplaceCharAbsent("&gt;", '"', "&quot;");
        ReplaceCharAbsent("&gt;", '\'', "&#39;");
      } else {
        ReplaceCharSingle(c, '"', "&quot;");
        if c == '"' {
          ReplaceCharAbsent("&quot;", '\'', "&#39;");
        } else {
          ReplaceCharSingle(c, '\'', "&#39;");
        }
      }
    }
  }

  lemma EscapeHtmlAppend(a: string, b: string)
    ensures EscapeHtml(Some(a + b)) == EscapeHtml(Some(a)) + EscapeHtml(Some(b))
  {
    ReplaceCharAppend(a, b, '&', "&amp;");
    var a1, b1 := ReplaceChar(a, '&', "&amp;"), ReplaceChar(b, '&', "&amp;");
    ReplaceCharAppend(a1, b1, '<', "&lt;");
    var a2, b2 := ReplaceChar(a1, '<', "&lt;"), ReplaceChar(b1, '<', "&lt;");
    ReplaceCharAppend(a2, b2, '>', "&gt;");
    var a3, b3 := ReplaceChar(a2, '>', "&gt;"), ReplaceChar(b2, '>', "&gt;");
    ReplaceCharAppend(a3, b3, '"', "&quot;");
    var a4, b4 := ReplaceChar(a3, '"', "&quot;"), ReplaceChar(b3, '"', "&quot;");
    ReplaceCharAppend(a4, b4, '\'', "&#39;");
  }

  /**
   * The replace chain escapes each character independently. This holds because "&" is
   * replaced first: later replacements never produce a "&" that a later step rewrites.
   */
  lemma {:induction false} EscapeHtmlIsPerChar(s: string)
    ensures EscapeHtml(Some(s)) == Escaped(s)
  {
    if s != [] {
      assert s == [s[0]] + s[1..];
      EscapeHtmlAppend([s[0]], s[1..]);
      EscapeOneChar(s[0]);
      EscapeHtmlIsPerChar(s[1..]);
    }
  }

  predicate IsMarkupChar(c: char) { c == '<' || c == '>' || c == '"' || c == '\'' }

  predicate StartsWith(t: string, p: string) { |p| <= |t| && t[..|p|] == p }

  /** One of the five entities the escaper writes starts `t`. */
  predicate StartsWithEntity(t: string) {
    StartsWith(t, "&amp;") || StartsWith(t, "&lt;") || StartsWith(t, "&gt;")
    || StartsWith(t, "&quot;") || StartsWith(t, "&#39;")
  }

  /** The text is safe to splice into HTML: no markup character, and no bare "&". */
  predicate HtmlSafe(t: string) {
    forall i :: 0 <= i < |t| ==> !IsMarkupChar(t[i]) && (t[i] == '&' ==> StartsWithEntity(t[i..]))
  }

  lemma HtmlSafeCons(e: string, rest: string)
    requires HtmlSafe(e) && HtmlSafe(rest)
    ensures HtmlSafe(e + rest)
  {
    var t := e + rest;
    forall i | 0 <= i < |t| ensures !IsMarkupChar(t[i]) && (t[i] == '&' ==> StartsWithEntity(t[i..])) {
      if i >= |e| {
        assert t[i] == rest[i - |e|];
        assert t[i..] == rest[i - |e|..];
      } else {
        assert t[i] == e[i];
        if t[i] == '&' {
          assert StartsWithEntity(e[i..]);
          assert t[i..] == e[i..] + rest;
        }
      }
    }
  }

  lemma EscapeCharSafe(c: char)
    ensures HtmlSafe(EscapeChar(c))
  {
    var e := EscapeChar(c);
    if c == '&' {
      assert e[0..] == "&amp;";
    }
  }

  lemma {:induction false} EscapedSafe(s: string)
    ensures HtmlSafe(Escaped(s))
  {
    if s != [] {
      EscapeCharSafe(s[0]);
      EscapedSafe(s[1..]);
      HtmlSafeCons(EscapeChar(s[0]), Escaped(s[1..]));
    }
  }

  /**
   * _escape_html output never contains <, >, " or ', and every & in it begins one of
   * the five entities.
   */
  lemma EscapeHtmlIsSafe(v: Option<string>)
    ensures HtmlSafe(EscapeHtml(v))
  {
    if v.Some? {
      EscapeHtmlIsPerChar(v.value);
      EscapedSafe(v.value);
    }
  }

  /** What a browser shows for escaped text: the five entities decoded. */
  function Unescape(t: string): string
    decreases |t|
  {
    if t == [] then []
    else if StartsWith(t, "&amp;") then "&" + Unescape(t[5..])
    else if StartsWith(t, "&lt;") then "<" + Unescape(t[4..])
    else if StartsWith(t, "&gt;") then ">" + Unescape(t[4..])
    else if StartsWith(t, "&quot;") then "\"" + Unescape(t[6..])
    else if StartsWith(t, "&#39;") then "'" + Unescape(t[5..])
    else [t[0]] + Unescape(t[1..])
  }

  lemma UnescapeCons(c: char, rest: string)
    ensures Unescape(EscapeChar(c) + rest) == [c] + Unescape(rest)
  {
    var t := EscapeChar(c) + rest;
    var e := EscapeChar(c);
    assert t[..|e|] == e;
    assert t[|e|..] == rest;
    if c != '&' && c != '<' && c != '>' && c != '"' && c != '\'' {
      assert t[0] == c;
      assert !StartsWith(t, "&amp;") && !StartsWith(t, "&lt;") && !StartsWith(t, "&gt;")
        && !StartsWith(t, "&quot;") && !StartsWith(t, "&#39;") by {
        assert t[0] != '&';
      }
      assert t[1..] == rest;
    } else if c == '&' {
      assert t[..5] == "&amp;";
    } else if c == '<' {
      assert t[..4] == "&lt;";
      assert !StartsWith(t, "&amp;") by { assert t[1] == 'l'; }
    } else if c == '>' {
      assert t[..4] == "&gt;";
      assert !StartsWith(t, "&amp;") by { assert t[1] == 'g'; }
      assert !StartsWith(t, "&lt;") by { assert t[1] == 'g'; }
    } else if c == '"' {
      assert t[..6] == "&quot;";
      assert !StartsWith(t, "&amp;") && !StartsWith(t, "&lt;") && !StartsWith(t, "&gt;") by { assert t[1] == 'q'; }
    } else {
      assert t[..5] == "&#39;";
      assert !StartsWith(t, "&amp;") && !StartsWith(t, "&lt;") && !StartsWith(t, "&gt;")
        && !StartsWith(t, "&quot;") by { assert t[1] == '#'; }
    }
  }

  lemma {:induction false} UnescapeEscaped(s: string)
    ensures Unescape(Escaped(s)) == s
  {
    if s != [] {
      UnescapeCons(s[0], Escaped(s[1..]));
      UnescapeEscaped(s[1..]);
      assert s == [s[0]] + s[1..];
    }
  }

  /** Escaping loses nothing: the reader sees exactly the original text. */
  lemma EscapeRoundTrip(s: string)
    ensures Unescape(EscapeHtml(Some(s))) == s
  {
    EscapeHtmlIsPerChar(s);
    UnescapeEscaped(s);
  }

  // ===========================================================================
  // _badge and the tone rules of build_email
  // ===========================================================================

  datatype Tone = Green | Red | Yellow | Blue | Gray

  /** A rendered badge: its tone and the (escaped) HTML text inside the pill. */
  datatype Badge = Badge(html: string, tone: Tone)

  /** _badge(text, tone) */
  function MakeBadge(text: string, tone: Tone): (b: Badge)
    ensures b.tone == tone && HtmlSafe(b.html) && Unescape(b.html) == text
  {
    EscapeHtmlIsSafe(Some(text));
    EscapeRoundTrip(text);
    Badge(EscapeHtml(Some(text)), tone)
  }

  /** The status badge: RESOLVED green, BLOCKED red, anything else gray ("UNKNOWN" when empty). */
  function StatusBadge(status: string): (b: Badge)
    ensures Upper(status) == "RESOLVED" ==> b == MakeBadge("RESOLVED", Green)
    ensures Upper(status) == "BLOCKED" ==> b == MakeBadge("BLOCKED", Red)
    ensures Upper(status) != "RESOLVED" && Upper(status) != "BLOCKED" ==>
      b == MakeBadge(if status == [] then "UNKNOWN" else Upper(status), Gray)
  {
    var su := Upper(status);
    if su == "RESOLVED" then MakeBadge("RESOLVED", Green)
    else if su == "BLOCKED" then MakeBadge("BLOCKED", Red)
    else MakeBadge(if su == [] then "UNKNOWN" else su, Gray)
  }

  /** The severity badge: HIGH/CRITICAL red, MEDIUM/WARN/WARNING yellow, else gray ("INFO" when empty). */
  function SeverityBadge(severity: string): (b: Badge)
    ensures Upper(severity) in {"HIGH", "CRITICAL"} ==> b.tone == Red
    ensures Upper(severity) in {"MEDIUM", "WARN", "WARNING"} ==> b.tone == Yellow
    ensures Upper(severity) !in {"HIGH", "CRITICAL", "MEDIUM", "WARN", "WARNING"} ==> b.tone == Gray
    ensures Unescape(b.html) == if severity == [] then "INFO" else Upper(severity)
  {
    var sev := Upper(severity);
    if sev == "HIGH" || sev == "CRITICAL" then MakeBadge(sev, Red)
    else if sev == "MEDIUM" || sev == "WARN" || sev == "WARNING" then MakeBadge(sev, Yellow)
    else MakeBadge(if sev == [] then "INFO" else sev, Gray)
  }

  /** Lower-case spellings get the same tone: the rules compare the upper-cased value. */
  lemma SeverityIgnoresCase(severity: string)
    ensures SeverityBadge(severity).tone == SeverityBadge(Upper(severity)).tone
  {
    UpperIdempotent(severity);
  }

  lemma UpperIdempotent(s: string)
    ensures Upper(Upper(s)) == Upper(s)
  {
  }

  /** The subject line: prefix, incident type, host, upper-cased status. */
  function Subject(prefix: string, incidentType: string, host: string, status: string): (r: string)
    ensures StartsWith(r, prefix + " " + incidentType + " | ")
    ensures |r| >= |status| && r[|r| - |status|..] == Upper(status)
    ensures var h := |prefix| + |incidentType| + 4;
      && |r| == h + |host| + 3 + |status|
      && r[h..h + |host|] == host
      && r[h + |host|..h + |host| + 3] == " | "
  {
    var head := prefix + " " + incidentType + " | ";
    var r := head + host + " | " + Upper(status);
    assert r[..|head|] == head;
    assert r[|head|..|head| + |host|] == host;
    assert r[|head| + |host|..|head| + |host| + 3] == " | ";
    r
  }

  // ===========================================================================
  // _render_attempts / _render_steps
  // ===========================================================================

  const UlOpen := "<ul style='margin:0; padding-left:18px;'>"
  const UlClose := "</ul>"
  const LiOpen := "<li style='margin:6px 0;'>"
  const LiClose := "</li>"
  const NoAttempts := "<p style='margin:0;color:#6b7280;'>None</p>"
  const NoSteps := "<p style='margin:0;color:#6b7280;'>No next steps provided.</p>"

  function ListItem(x: string): string {
    LiOpen + EscapeHtml(Some(x)) + LiClose
  }

  /** "".join of the <li> items, in order. */
  function ListItems(xs: seq<string>): string {
    if xs == [] then "" else ListItem(xs[0]) + ListItems(xs[1..])
  }

  /** The body shared by _render_attempts and _render_steps: a placeholder, or one <li> per item. */
  function RenderList(xs: seq<string>, placeholder: string): string {
    if xs == [] then placeholder else UlOpen + ListItems(xs) + UlClose
  }

  function RenderAttempts(attempts: seq<string>): string {
    RenderList(attempts, NoAttempts)
  }

  function RenderSteps(steps: seq<string>): string {
    RenderList(steps, NoSteps)
  }

  /** The first position of `c` in `t`, or |t|. */
  function IndexOf(t: string, c: char): (k: nat)
    ensures k <= |t|
    ensures k < |t| ==> t[k] == c
    ensures forall j :: 0 <= j < k ==> t[j] != c
  {
    if t == [] || t[0] == c then 0 else 1 + IndexOf(t[1..], c)
  }

  /** Read the <li> items back, decoding each one's text; None if `t` is not such a list. */
  function ParseItems(t: string): Option<seq<string>>
    decreases |t|
  {
    if t == [] then Some([])
    else if !StartsWith(t, LiOpen) then None
    else
      var rest := t[|LiOpen|..];
      var k := IndexOf(rest, '<');
      if !StartsWith(rest[k..], LiClose) then None
      else match ParseItems(rest[k + |LiClose|..])
        case None => None
        case Some(more) => Some([Unescape(rest[..k])] + more)
  }

  /** Read a rendered list back: the placeholder gives [], otherwise the items in order. */
  function ReadList(html: string, placeholder: string): Option<seq<string>>
  {
    if html == placeholder then Some([])
    else if StartsWith(html, UlOpen) && |html| >= |UlOpen| + |UlClose|
         && html[|html| - |UlClose|..] == UlClose
    then ParseItems(html[|UlOpen|..|html| - |UlClose|])
    else None
  }

  lemma IndexOfEscaped(x: string, more: string)
    ensures IndexOf(EscapeHtml(Some(x)) + LiClose + more, '<') == |EscapeHtml(Some(x))|
  {
    var e := EscapeHtml(Some(x));
    EscapeHtmlIsSafe(Some(x));
    var t := e + LiClose + more;
    forall j | 0 <= j < |e| ensures t[j] != '<' {
      assert t[j] == e[j];
    }
    assert t[|e|] == '<';
    IndexOfAt(t, '<', |e|);
  }

  lemma {:induction false} IndexOfAt(t: string, c: char, k: nat)
    requires k < |t| && t[k] == c && forall j :: 0 <= j < k ==> t[j] != c
    ensures IndexOf(t, c) == k
  {
    if k > 0 {
      IndexOfAt(t[1..], c, k - 1);
    }
  }

  /** One step of the reader: an <li> whose text has no "<" is decoded and the rest read on. */
  lemma ParseItemsStep(e: string, tail: string)
    requires IndexOf(e + LiClose + tail, '<') == |e|
    ensures ParseItems(LiOpen + e + LiClose + tail) ==
      match ParseItems(tail)
      case None => None
      case Some(more) => Some([Unescape(e)] + more)
  {
    var t := LiOpen + e + LiClose + tail;
    assert t[..|LiOpen|] == LiOpen;
    var rest := t[|LiOpen|..];
    assert rest == e + LiClose + tail;
    assert rest[|e|..] == LiClose + tail;
    assert rest[|e|..][..|LiClose|] == LiClose;
    assert rest[|e| + |LiClose|..] == tail;
    assert rest[..|e|] == e;
  }

  lemma {:induction false} ReadListItems(xs: seq<string>)
    ensures ParseItems(ListItems(xs)) == Some(xs)
  {
    if xs != [] {
      var e := EscapeHtml(Some(xs[0]));
      var tail := ListItems(xs[1..]);
      assert ListItems(xs) == LiOpen + e + LiClose + tail;
      IndexOfEscaped(xs[0], tail);
      ParseItemsStep(e, tail);
      ReadListItems(xs[1..]);
      EscapeRoundTrip(xs[0]);
      assert xs == [xs[0]] + xs[1..];
    }
  }

  /**
   * An empty list renders the placeholder; otherwise there is one <li> per item, in
   * order, and reading them back gives the items.
   */
  /** The three pieces of `o + b + c` can be sliced back out. */
  lemma Framed(o: string, b: string, c: string)
    ensures var h := o + b + c;
      && |h| >= |o| + |c|
      && h[..|o|] == o
      && h[|h| - |c|..] == c
      && h[|o|..|h| - |c|] == b
  {
    var h := o + b + c;
    assert h == o + (b + c);
  }

  lemma ParseUl(body: string, placeholder: string)
    requires |placeholder| > 1 && placeholder[1] == 'p'
    ensures ReadList(UlOpen + body + UlClose, placeholder) == ParseItems(body)
  {
    var h := UlOpen + body + UlClose;
    Framed(UlOpen, body, UlClose);
    assert h[1] == UlOpen[1] == 'u';
  }

  lemma RenderListRoundTrip(xs: seq<string>, placeholder: string)
    requires placeholder == NoAttempts || placeholder == NoSteps
    ensures xs == [] ==> RenderList(xs, placeholder) == placeholder
    ensures ReadList(RenderList(xs, placeholder), placeholder) == Some(xs)
  {
    if xs != [] {
      assert placeholder[1] == 'p';
      ParseUl(ListItems(xs), placeholder);
      ReadListItems(xs);
    }
  }

  // ===========================================================================
  // _render_cwe_table
  // ===========================================================================

  const MaxCveBadges := 8

  /** The CWE block: absent when there is no classification. */
  datatype CweBlock =
    | NoCweBlock
    | CweTable(cweBadge: Badge, titleHtml: string, descHtml: string, cves: Option<seq<Badge>>)

  /** The CVE badges: "Not provided" (None) for an empty list, else at most the first eight. */
  function CveBadges(cves: seq<string>): (r: Option<seq<Badge>>)
    ensures r.None? <==> cves == []
    ensures r.Some? ==> |r.value| == if |cves| < MaxCveBadges then |cves| else MaxCveBadges
    ensures r.Some? ==> forall i :: 0 <= i < |r.value| ==> r.value[i] == MakeBadge(cves[i], Blue)
  {
    if cves == [] then None
    else
      var shown := if |cves| < MaxCveBadges then cves else cves[..MaxCveBadges];
      Some(seq(|shown|, i requires 0 <= i < |shown| => MakeBadge(shown[i], Blue)))
  }

  /** The CWE badge as _render_cwe_table builds it: _badge receives the already escaped code. */
  function CweBadgeAsWritten(code: string): (b: Badge)
    ensures b.tone == Gray && Unescape(b.html) == EscapeHtml(Some(code))
  {
    MakeBadge(EscapeHtml(Some(code)), Gray)
  }

  /** _render_cwe_table as written: the CWE code is escaped twice. */
  function RenderCweTableAsWritten(vuln: Option<KbLoader.Classification>): (r: CweBlock)
    ensures vuln.None? <==> r.NoCweBlock?
    ensures vuln.Some? ==> r.cweBadge == CweBadgeAsWritten(vuln.value.cwe)
  {
    match vuln
    case None => NoCweBlock
    case Some(v) =>
      CweTable(CweBadgeAsWritten(v.cwe),
        EscapeHtml(Some(v.title)), EscapeHtml(Some(v.description)), CveBadges(v.exampleCves))
  }

  /** A reader of the as-written badge for the code "&" sees "&amp;", not "&". */
  lemma DoubleEscapedCwe()
    ensures Unescape(CweBadgeAsWritten("&").html) == "&amp;"
  {
    EscapeOneChar('&');
  }

  /** _render_cwe_table with the code escaped once, like the title and description. */
  function RenderCweTable(vuln: Option<KbLoader.Classification>): (r: CweBlock)
    ensures vuln.None? <==> r.NoCweBlock?
    ensures vuln.Some? ==>
      && r.cweBadge.tone == Gray
      && Unescape(r.cweBadge.html) == vuln.value.cwe
      && Unescape(r.titleHtml) == vuln.value.title && HtmlSafe(r.titleHtml)
      && Unescape(r.descHtml) == vuln.value.description && HtmlSafe(r.descHtml)
      && r.cves == CveBadges(vuln.value.exampleCves)
  {
    match vuln
    case None => NoCweBlock
    case Some(v) =>
      EscapeRoundTrip(v.title);
      EscapeRoundTrip(v.description);
      EscapeHtmlIsSafe(Some(v.title));
      EscapeHtmlIsSafe(Some(v.description));
      CweTable(MakeBadge(v.cwe, Gray),
        EscapeHtml(Some(v.title)), EscapeHtml(Some(v.description)), CveBadges(v.exampleCves))
  }

  /** The two renderings differ only in the CWE badge. */
  lemma CweTablesAgreeElsewhere(vuln: Option<KbLoader.Classification>)
    requires vuln.Some?
    ensures RenderCweTable(vuln).titleHtml == RenderCweTableAsWritten(vuln).titleHtml
    ensures RenderCweTable(vuln).descHtml == RenderCweTableAsWritten(vuln).descHtml
    ensures RenderCweTable(vuln).cves == RenderCweTableAsWritten(vuln).cves
  {
  }

  // ===========================================================================
  // build_email
  // ===========================================================================

  /** The incident fields the e-mail reads; a missing key is None. */
  datatype IncidentFields = IncidentFields(kind: Option<string>, severity: Option<string>, details: Option<string>)

  datatype EmailBody = EmailBody(
    hostHtml: string,
    severityBadge: Badge,
    statusBadge: Badge,
    typeHtml: string,
    detailsHtml: string,
    attemptsHtml: string,
    stepsHtml: string,
    cwe: CweBlock)

  datatype Email = Email(subject: string, body: EmailBody)

  /** build_email; `attempts` are the remediation attempts as the text str() gives them. */
  function BuildEmail(subjectPrefix: string, host: string, incident: IncidentFields, attempts: seq<string>,
                      status: string, nextSteps: seq<string>, vuln: Option<KbLoader.Classification>): (e: Email)
    ensures e.subject == Subject(subjectPrefix, incident.kind.GetOr("Unknown"), host, status)
    ensures e.body.statusBadge == StatusBadge(status)
    ensures e.body.severityBadge == SeverityBadge(incident.severity.GetOr("INFO"))
    ensures ReadList(e.body.attemptsHtml, NoAttempts) == Some(attempts)
    ensures ReadList(e.body.stepsHtml, NoSteps) == Some(nextSteps)
    ensures e.body.cwe == RenderCweTable(vuln)
    ensures Unescape(e.body.hostHtml) == host
    ensures Unescape(e.body.typeHtml) == incident.kind.GetOr("Unknown")
    ensures Unescape(e.body.detailsHtml) == incident.details.GetOr("")
  {
    RenderListRoundTrip(attempts, NoAttempts);
    RenderListRoundTrip(nextSteps, NoSteps);
    EscapeRoundTrip(host);
    EscapeRoundTrip(incident.kind.GetOr("Unknown"));
    EscapeRoundTrip(incident.details.GetOr(""));
    var incidentType := incident.kind.GetOr("Unknown");
    Email(
      Subject(subjectPrefix, incidentType, host, status),
      EmailBody(
        EscapeHtml(Some(host)),
        SeverityBadge(incident.severity.GetOr("INFO")),
        StatusBadge(status),
        EscapeHtml(Some(incidentType)),
        EscapeHtml(Some(incident.details.GetOr(""))),
        RenderAttempts(attempts),
        RenderSteps(nextSteps),
        RenderCweTable(vuln)))
  }
}

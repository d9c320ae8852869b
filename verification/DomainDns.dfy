/**
Two separately written checks of a sending domain's DNS: one fills in a table row per expected record for
the customer's page, the other decides whether the domain is verified.  The proof is that they agree.
 */
module DomainDns {
  import opened Options
  import opened Strings

  /** The stored expectations of a `TenantDomain` row. */
  datatype Domain = Domain(
    domain: string, spfTxtExpected: string, dkimSelector: string, dkimTxtValue: string, dmarcTxtExpected: string,
    postalVerificationTxt: string, returnPathName: string, returnPathTarget: string, mxTargets: seq<string>)

  /** The operator settings the resolvers fall back on. */
  datatype Settings = Settings(spfIncludeHint: string, dkimSelector: string, returnPathHost: string,
                               returnPathPrefix: string, mxTargets: seq<string>)

  /** What the module's regular expressions extract; their syntax is not part of the model. */
  datatype Patterns = Patterns(
    includes: string -> seq<string>, postalZone: string -> Option<string>, dkimKey: string -> string,
    hasKeyTag: string -> bool, dmarcPolicy: string -> Option<string>)
  {
    /** `dkimKey` is empty when there is no match, and a pattern that needs characters matches no empty text. */
    ghost predicate Valid() {
      dkimKey("") == ""
    }
  }

  /** The live answers of one moment, and whether the DNS library is installed. */
  datatype Answers = Answers(txt: string -> seq<string>, cname: string -> Option<string>,
                             mx: string -> seq<(int, string)>, library: bool)

  // ---------------------------------------------------------------------------------------------
  // What is expected
  // ---------------------------------------------------------------------------------------------

  function NormalizeFqdn(domain: string): string {
    var d := WithoutPrefix(WithoutPrefix(Lower(Strip(domain)), "https://"), "http://");
    TrimDots(UpTo(d, '/'))
  }

  /** The non-empty dot-separated labels. */
  function Labels(d: string): seq<string>
    decreases |d|
  {
    if d == "" then []
    else if d[0] == '.' then Labels(d[1..])
    else
      var first := UpTo(d, '.');
      if |first| >= |d| then [first] else [first] + Labels(d[|first| + 1..])
  }

  function RegistrableRoot(domain: string): string {
    var d := NormalizeFqdn(domain);
    var parts := Labels(d);
    if |parts| >= 2 then parts[|parts| - 2] + "." + parts[|parts| - 1] else d
  }

  function ExpectedSpf(td: Domain, settings: Settings): string {
    var hint := Strip(settings.spfIncludeHint);
    OrElse(Strip(td.spfTxtExpected), if hint == "" then "" else "v=spf1 include:" + hint + " ~all")
  }

  function ExpectedDkim(td: Domain): string {
    Strip(td.dkimTxtValue)
  }

  /** The selector is looked up only once a key is known. */
  function DkimSelector(td: Domain, settings: Settings): string {
    if ExpectedDkim(td) == "" then ""
    else OrElse(Strip(td.dkimSelector), Strip(OrElse(settings.dkimSelector, "postal")))
  }

  function ExpectedDmarc(td: Domain): string {
    OrElse(Strip(td.dmarcTxtExpected), "v=DMARC1; p=none; rua=mailto:dmarc@" + RegistrableRoot(td.domain))
  }

  function ReturnPathTarget(td: Domain, settings: Settings, rx: Patterns): string {
    var stored := OrElse(Strip(td.returnPathTarget), Strip(settings.returnPathHost));
    var zone := rx.postalZone(Strip(td.spfTxtExpected));
    TrimDots(if stored != "" then stored else if zone.Some? then "rp." + zone.value else "")
  }

  function ReturnPathName(td: Domain, settings: Settings): string {
    var prefix := OrElse(Strip(OrElse(settings.returnPathPrefix, "psrp")), "psrp");
    NormalizeFqdn(OrElse(Strip(td.returnPathName), prefix + "." + NormalizeFqdn(td.domain)))
  }

  function CleanHosts(hosts: seq<string>): seq<string> {
    if hosts == [] then []
    else (if Strip(hosts[0]) == "" then [] else [TrimDots(Strip(hosts[0]))]) + CleanHosts(hosts[1..])
  }

  function MxHosts(td: Domain, settings: Settings, rx: Patterns): seq<string> {
    var stored := CleanHosts(td.mxTargets);
    if stored != [] then stored
    else if CleanHosts(settings.mxTargets) != [] then CleanHosts(settings.mxTargets)
    else
      var zone := rx.postalZone(Strip(td.spfTxtExpected));
      if zone.Some? then ["mx." + zone.value] else []
  }

  /** Everything the checks expect of one domain, resolved from its row and the settings. */
  datatype Plan = Plan(d: string, control: string, spf: string, selector: string, dkim: string, dmarc: string,
                       returnName: string, returnTarget: string, mxHosts: seq<string>)
  {
    predicate HasDkim() {
      selector != "" && dkim != ""
    }

    function DkimName(): string {
      selector + "._domainkey." + d
    }

    function DmarcName(): string {
      "_dmarc." + d
    }
  }

  function PlanOf(td: Domain, settings: Settings, rx: Patterns): (plan: Plan)
    ensures plan.dmarc != ""
  {
    Plan(NormalizeFqdn(td.domain), Strip(td.postalVerificationTxt), ExpectedSpf(td, settings), DkimSelector(td, settings),
         ExpectedDkim(td), ExpectedDmarc(td), ReturnPathName(td, settings), ReturnPathTarget(td, settings, rx),
         MxHosts(td, settings, rx))
  }

  /** What is expected comes from the domain's own row first, then from the operator's settings; only DMARC has a default
      of its own, and only the return path and MX hosts are derived from the SPF record. */
  lemma ExpectationsByLayer(td: Domain, settings: Settings, rx: Patterns)
    ensures var plan := PlanOf(td, settings, rx);
            var spf, hint := Strip(td.spfTxtExpected), Strip(settings.spfIncludeHint);
            var zone := rx.postalZone(spf);
            && plan.d == NormalizeFqdn(td.domain) && plan.control == Strip(td.postalVerificationTxt)
            && plan.spf == (if spf != "" then spf else if hint != "" then "v=spf1 include:" + hint + " ~all" else "")
            && plan.dkim == Strip(td.dkimTxtValue)
            && plan.selector == (if plan.dkim == "" then "" else if Strip(td.dkimSelector) != "" then Strip(td.dkimSelector)
                                 else if settings.dkimSelector == "" then "postal" else Strip(settings.dkimSelector))
            && plan.dmarc == (if Strip(td.dmarcTxtExpected) != "" then Strip(td.dmarcTxtExpected)
                              else "v=DMARC1; p=none; rua=mailto:dmarc@" + RegistrableRoot(td.domain))
            && (Strip(td.returnPathTarget) != "" ==> plan.returnTarget == TrimDots(Strip(td.returnPathTarget)))
            && (Strip(td.returnPathTarget) == "" && Strip(settings.returnPathHost) != "" ==>
                  plan.returnTarget == TrimDots(Strip(settings.returnPathHost)))
            && (Strip(td.returnPathTarget) == "" == Strip(settings.returnPathHost) ==>
                  plan.returnTarget == if zone.Some? then TrimDots("rp." + zone.value) else "")
            && (Strip(td.returnPathName) != "" ==> plan.returnName == NormalizeFqdn(Strip(td.returnPathName)))
            && (Strip(td.returnPathName) == "" && settings.returnPathPrefix == "" ==>
                  plan.returnName == NormalizeFqdn("psrp." + plan.d))
            && plan.mxHosts == (if CleanHosts(td.mxTargets) != [] then CleanHosts(td.mxTargets)
                                else if CleanHosts(settings.mxTargets) != [] then CleanHosts(settings.mxTargets)
                                else if zone.Some? then ["mx." + zone.value] else [])
  {
    assert Strip("") == "" && Strip("psrp") == "psrp" && Strip("postal") == "postal";
    assert "psrp" + "." + NormalizeFqdn(td.domain) == "psrp." + NormalizeFqdn(td.domain);
    assert TrimDots("") == "";
  }

  function JoinDots(parts: seq<string>): string {
    if parts == [] then "" else if |parts| == 1 then parts[0] else parts[0] + "." + JoinDots(parts[1..])
  }

  predicate DotFree(parts: seq<string>) {
    forall i :: 0 <= i < |parts| ==> parts[i] != "" && '.' !in parts[i]
  }

  lemma {:induction false} UpToFirst(a: string, c: char, rest: string)
    requires c !in a
    ensures UpTo(a + ([c] + rest), c) == a && UpTo(a, c) == a
  {
    if a == "" {
      assert a + ([c] + rest) == [c] + rest;
    } else {
      assert (a + ([c] + rest))[1..] == a[1..] + ([c] + rest);
      UpToFirst(a[1..], c, rest);
    }
  }

  /** Labels are what dots separate. */
  lemma {:induction false} LabelsOfJoin(parts: seq<string>)
    requires DotFree(parts)
    ensures Labels(JoinDots(parts)) == parts
  {
    if |parts| == 1 {
      UpToFirst(parts[0], '.', "");
    } else if |parts| > 1 {
      var rest := JoinDots(parts[1..]);
      LabelsOfJoin(parts[1..]);
      assert JoinDots(parts) == parts[0] + (['.'] + rest);
      UpToFirst(parts[0], '.', rest);
      assert JoinDots(parts)[|parts[0]| + 1..] == rest;
    }
  }

  /** The mailto apex of a name is its last two labels. */
  lemma RootIsLastTwo(domain: string, parts: seq<string>)
    requires DotFree(parts) && |parts| >= 2 && NormalizeFqdn(domain) == JoinDots(parts)
    ensures RegistrableRoot(domain) == parts[|parts| - 2] + "." + parts[|parts| - 1]
  {
    LabelsOfJoin(parts);
  }

  /** A host name as DNS knows it: lower case, no white space around it, no slash or colon, no trailing dot. */
  predicate PlainHost(host: string) {
    && host != "" && Lower(host) == host && '/' !in host && ':' !in host
    && !Space(host[0]) && !Space(host[|host| - 1]) && host[|host| - 1] != '.'
  }

  /** A plain host name stands for itself, and so it does in any case, with a trailing dot, or in a URL. */
  lemma NormalizeFindsHost(host: string, written: string, path: string)
    requires PlainHost(host) && Lower(written) == host
    requires path == "" || !Space(path[|path| - 1])
    ensures NormalizeFqdn(written) == host && NormalizeFqdn(written + ".") == host
    ensures NormalizeFqdn("https://" + (written + ("/" + path))) == host
    ensures NormalizeFqdn("http://" + (written + ("/" + path))) == host
  {
    BareHost(host, written);
    DottedHost(host, written);
    UrlHost("https://", host, written, path);
    UrlHost("http://", host, written, path);
  }

  lemma SpaceIgnoresCase(written: string, i: nat)
    requires i < |written|
    ensures Space(Lower(written)[i]) <==> Space(written[i])
  {
  }

  lemma NothingToStrip(s: string)
    requires s != "" && !Space(s[0]) && !Space(s[|s| - 1])
    ensures Strip(s) == s
  {
  }

  /** The stages of reading a host name. */
  lemma ReadsHost(domain: string, text: string, rest: string, found: string)
    requires Strip(domain) == domain && Lower(domain) == text
    requires WithoutPrefix(WithoutPrefix(text, "https://"), "http://") == rest && UpTo(rest, '/') == found
    ensures NormalizeFqdn(domain) == TrimDots(found)
  {
  }

  lemma BareHost(host: string, written: string)
    requires PlainHost(host) && Lower(written) == host
    ensures NormalizeFqdn(written) == host
  {
    EndsInAnyCase(host, written);
    NothingToStrip(written);
    SchemeFree(host);
    UpToFirst(host, '/', "");
    ReadsHost(written, host, host, host);
  }

  lemma EndsInAnyCase(host: string, written: string)
    requires PlainHost(host) && Lower(written) == host
    ensures written != "" && !Space(written[0]) && !Space(written[|written| - 1])
  {
    assert |written| == |host|;
    SpaceIgnoresCase(written, 0);
    SpaceIgnoresCase(written, |written| - 1);
  }

  lemma DottedHost(host: string, written: string)
    requires PlainHost(host) && Lower(written) == host
    ensures NormalizeFqdn(written + ".") == host
  {
    EndsInAnyCase(host, written);
    NothingToStrip(written + ".");
    assert Lower(written + ".") == host + ".";
    SchemeFree(host + ".");
    UpToFirst(host + ".", '/', "");
    ReadsHost(written + ".", host + ".", host + ".", host + ".");
    assert (host + ".")[..|host|] == host;
    assert TrimDots(host) == host;
  }

  lemma SchemeFree(host: string)
    requires ':' !in host
    ensures WithoutPrefix(WithoutPrefix(host, "https://"), "http://") == host
  {
    NoSchemeInHost(host, "");
    assert host + "" == host;
  }

  lemma NoSchemeInHost(host: string, path: string)
    requires ':' !in host && (path == "" || path[0] == '/')
    ensures !("https://" <= host + path) && !("http://" <= host + path)
  {
    if |host| >= 6 {
      assert (host + path)[5] == host[5];
    }
    if |host| >= 5 {
      assert (host + path)[4] == host[4];
    }
    if path != "" {
      assert (host + path)[|host|] == '/';
    }
  }

  lemma UrlInLowerCase(scheme: string, host: string, written: string, path: string)
    requires (scheme == "https://" || scheme == "http://") && Lower(written) == host
    ensures Lower(scheme + (written + ("/" + path))) == scheme + (host + ("/" + Lower(path)))
  {
  }

  lemma UrlEnds(scheme: string, written: string, path: string)
    requires scheme != "" && !Space(scheme[0]) && (path == "" || !Space(path[|path| - 1]))
    ensures var url := scheme + (written + ("/" + path)); url != "" && !Space(url[0]) && !Space(url[|url| - 1])
  {
    var url := scheme + (written + ("/" + path));
    assert url[|url| - 1] == if path == "" then '/' else path[|path| - 1];
  }

  lemma SchemeIsCut(scheme: string, host: string, tail: string)
    requires (scheme == "https://" || scheme == "http://") && ':' !in host && tail != "" && tail[0] == '/'
    ensures WithoutPrefix(WithoutPrefix(scheme + (host + tail), "https://"), "http://") == host + tail
  {
    NoSchemeInHost(host, tail);
    assert (scheme + (host + tail))[|scheme|..] == host + tail;
    if scheme == "http://" {
      assert (scheme + (host + tail))[4] == ':';
    }
  }

  lemma UrlHost(scheme: string, host: string, written: string, path: string)
    requires scheme == "https://" || scheme == "http://"
    requires PlainHost(host) && Lower(written) == host && (path == "" || !Space(path[|path| - 1]))
    ensures NormalizeFqdn(scheme + (written + ("/" + path))) == host
  {
    var url, tail := scheme + (written + ("/" + path)), "/" + Lower(path);
    UrlEnds(scheme, written, path);
    NothingToStrip(url);
    UrlInLowerCase(scheme, host, written, path);
    SchemeIsCut(scheme, host, tail);
    UpToFirst(host, '/', Lower(path));
    assert tail == ['/'] + Lower(path);
    ReadsHost(url, scheme + (host + tail), host + tail, host);
  }

  // ---------------------------------------------------------------------------------------------
  // The rows shown to the customer
  // ---------------------------------------------------------------------------------------------

  datatype Kind = PostalVerification | Spf | Dkim | ReturnPath | Mx | Dmarc
  datatype CheckStatus = Pass | Missing | Mismatch | Unknown

  datatype Row = Row(kind: Kind, name: string, value: string)
  datatype CheckedRow = CheckedRow(row: Row, status: CheckStatus)

  function MxRows(hosts: seq<string>, d: string): seq<Row> {
    if hosts == [] then [] else MxRows(hosts[..|hosts| - 1], d) + [Row(Mx, d, "10 " + hosts[|hosts| - 1])]
  }

  function Append(rows: seq<Row>, present: bool, row: Row): seq<Row> {
    if present then rows + [row] else rows
  }

  /** The rows before the MX rows. */
  function LeadingRows(plan: Plan): seq<Row> {
    var rows := Append([], plan.control != "", Row(PostalVerification, plan.d, plan.control));
    var rows := Append(rows, plan.spf != "", Row(Spf, plan.d, plan.spf));
    var rows := Append(rows, plan.HasDkim(), Row(Dkim, plan.DkimName(), plan.dkim));
    Append(rows, plan.returnName != "" && plan.returnTarget != "", Row(ReturnPath, plan.returnName, plan.returnTarget))
  }

  function InstructionRows(plan: Plan): seq<Row> {
    LeadingRows(plan) + MxRows(plan.mxHosts, plan.d) + [Row(Dmarc, plan.DmarcName(), plan.dmarc)]
  }

  method BuildDnsInstructions(plan: Plan) returns (rows: seq<Row>)
    ensures rows == InstructionRows(plan)
  {
    rows := [];
    if plan.control != "" {
      rows := rows + [Row(PostalVerification, plan.d, plan.control)];
    }
    if plan.spf != "" {
      rows := rows + [Row(Spf, plan.d, plan.spf)];
    }
    if plan.selector != "" && plan.dkim != "" {
      rows := rows + [Row(Dkim, plan.DkimName(), plan.dkim)];
    }
    if plan.returnName != "" && plan.returnTarget != "" {
      rows := rows + [Row(ReturnPath, plan.returnName, plan.returnTarget)];
    }
    assert rows == LeadingRows(plan);
    for i := 0 to |plan.mxHosts|
      invariant rows == LeadingRows(plan) + MxRows(plan.mxHosts[..i], plan.d)
    {
      assert plan.mxHosts[..i + 1][..i] == plan.mxHosts[..i];
      rows := rows + [Row(Mx, plan.d, "10 " + plan.mxHosts[i])];
    }
    assert plan.mxHosts[..|plan.mxHosts|] == plan.mxHosts;
    rows := rows + [Row(Dmarc, plan.DmarcName(), plan.dmarc)];
  }

  // ---------------------------------------------------------------------------------------------
  // Matching
  // ---------------------------------------------------------------------------------------------

  predicate SpfMatches(live: string, expected: string, rx: Patterns) {
    var lj, ex := Lower(live), Lower(Strip(expected));
    ex != ""
    && (Contains(WithoutSpaces(lj), WithoutSpaces(ex))
        || (Contains(lj, "v=spf1") && rx.includes(ex) != []
            && forall i :: 0 <= i < |rx.includes(ex)| ==> Contains(lj, Lower(TrimDots(rx.includes(ex)[i])))))
  }

  predicate DkimMatches(live: string, expected: string, rx: Patterns) {
    rx.dkimKey(expected) != "" && rx.dkimKey(expected) == rx.dkimKey(live)
  }

  predicate DmarcMatches(live: string, expected: string, rx: Patterns) {
    var lj, policy := Lower(live), rx.dmarcPolicy(expected);
    Contains(lj, "v=dmarc1") && (policy.Some? ==> Contains(lj, "p=" + Lower(policy.value)))
  }

  predicate TxtMatches(answers: seq<string>, expected: string) {
    var joined := JoinWords(answers);
    Contains(Lower(WithoutSpaces(joined)), Lower(WithoutSpaces(expected))) || Contains(joined, expected)
  }

  function Hostname(h: string): string {
    TrimDots(Lower(Strip(h)))
  }

  /** The host part of an `MX` instruction value, `"10 host"` or just `"host"`. */
  function MxHost(value: string): string {
    Hostname(AfterNumber(Strip(value)))
  }

  predicate IsNumber(s: string) {
    s != "" && forall i :: 0 <= i < |s| ==> '0' <= s[i] <= '9'
  }

  function AfterNumber(v: string): string {
    var digits := UpTo(v, ' ');
    if |digits| < |v| && IsNumber(digits) then v[|digits|..] else v
  }

  // ---------------------------------------------------------------------------------------------
  // The row evaluator
  // ---------------------------------------------------------------------------------------------

  // The live texts; a name that cannot be formed is not looked up.
  function LiveSpf(plan: Plan, answers: Answers): string {
    if plan.d == "" then "" else JoinWords(answers.txt(plan.d))
  }

  function LiveDkim(plan: Plan, answers: Answers): string {
    if plan.selector == "" || plan.d == "" then "" else JoinWords(answers.txt(plan.DkimName()))
  }

  function LiveDmarc(plan: Plan, answers: Answers): string {
    if plan.d == "" then "" else JoinWords(answers.txt(plan.DmarcName()))
  }

  function RowStatus(plan: Plan, rx: Patterns, answers: Answers, row: Row): CheckStatus {
    if !answers.library then Unknown
    else
      match row.kind
      case PostalVerification =>
        var txts := answers.txt(NormalizeFqdn(row.name));
        if Strip(row.value) == "" then Unknown
        else if TxtMatches(txts, Strip(row.value)) then Pass else if txts == [] then Missing else Mismatch
      case Spf =>
        var live := LiveSpf(plan, answers);
        if plan.spf == "" then Unknown
        else if SpfMatches(live, row.value, rx) then Pass
        else if live == "" || !Contains(Lower(live), "v=spf1") then Missing else Mismatch
      case Dkim =>
        var live := LiveDkim(plan, answers);
        if !plan.HasDkim() then Unknown
        else if DkimMatches(live, plan.dkim, rx) then Pass
        else if rx.dkimKey(live) == "" || !rx.hasKeyTag(live) then Missing else Mismatch
      case Dmarc =>
        var live := LiveDmarc(plan, answers);
        if DmarcMatches(live, plan.dmarc, rx) then Pass
        else if Contains(Lower(live), "v=dmarc1") then Mismatch else Missing
      case ReturnPath =>
        var target := answers.cname(NormalizeFqdn(row.name));
        if target.None? then Missing else if Hostname(target.value) == Hostname(row.value) then Pass else Mismatch
      case Mx =>
        var live := answers.mx(plan.d);
        if MxHost(row.value) == "" then Unknown
        else if live == [] then Missing
        else if exists i :: 0 <= i < |live| && live[i].1 == MxHost(row.value) then Pass else Mismatch
  }

  /** Every instruction row, in order, with its status. */
  predicate Shown(rows: seq<Row>, plan: Plan, rx: Patterns, answers: Answers, checked: seq<CheckedRow>) {
    |checked| == |rows|
    && forall i :: 0 <= i < |rows| ==> checked[i] == CheckedRow(rows[i], RowStatus(plan, rx, answers, rows[i]))
  }

  method EvaluateDnsInstructionRows(td: Domain, settings: Settings, rx: Patterns, answers: Answers)
    returns (checked: seq<CheckedRow>)
    ensures var plan := PlanOf(td, settings, rx); Shown(InstructionRows(plan), plan, rx, answers, checked)
  {
    var plan := PlanOf(td, settings, rx);
    var rows := BuildDnsInstructions(plan);
    checked := EvaluateRows(rows, plan, rx, answers);
  }

  method EvaluateRows(rows: seq<Row>, plan: Plan, rx: Patterns, answers: Answers) returns (checked: seq<CheckedRow>)
    ensures Shown(rows, plan, rx, answers, checked)
  {
    checked := [];
    for i := 0 to |rows|
      invariant |checked| == i
      invariant forall j :: 0 <= j < i ==> checked[j] == CheckedRow(rows[j], RowStatus(plan, rx, answers, rows[j]))
    {
      checked := checked + [CheckedRow(rows[i], RowStatus(plan, rx, answers, rows[i]))];
    }
  }

  // ---------------------------------------------------------------------------------------------
  // The domain check
  // ---------------------------------------------------------------------------------------------

  datatype VerificationStatus = Unverified | DnsPending | PartiallyVerified | Verified | FailedCheck
  datatype RecordStatus = NotChecked | Passed | Failed | Partial | ByHand | NotFound

  datatype Judgement = Judgement(spfOk: bool, dkimOk: bool, dmarcOk: bool, complete: bool, status: VerificationStatus)

  /** The decision of the domain check as a function of the text answers alone. */
  function Verdict(plan: Plan, rx: Patterns, txt: string -> seq<string>): Judgement {
    if plan.d == "" then Judgement(false, false, false, false, FailedCheck)
    else
      var spfOk := plan.spf != "" && SpfMatches(JoinWords(txt(plan.d)), plan.spf, rx);
      var dkimOk := plan.HasDkim() && DkimMatches(JoinWords(txt(plan.DkimName())), plan.dkim, rx);
      var dmarcOk := plan.dmarc != "" && DmarcMatches(JoinWords(txt(plan.DmarcName())), plan.dmarc, rx);
      var complete := plan.spf != "" && plan.dkim != "";
      Judgement(spfOk, dkimOk, dmarcOk, complete,
                if !complete then PartiallyVerified
                else if spfOk && dkimOk && dmarcOk then Verified
                else if spfOk || dkimOk then PartiallyVerified else FailedCheck)
  }

  /** The three record fields a check sets. */
  datatype Fields = Fields(spf: RecordStatus, dkim: RecordStatus, dmarc: RecordStatus)

  function FieldsOf(plan: Plan, rx: Patterns, txt: string -> seq<string>): Fields {
    var v := Verdict(plan, rx, txt);
    var dkimLive := if plan.selector != "" then JoinWords(txt(plan.DkimName())) else "";
    var dmarcLive := JoinWords(txt(plan.DmarcName()));
    Fields(if plan.spf == "" then ByHand else if v.spfOk then Passed else Failed,
           if plan.HasDkim() then (if v.dkimOk then Passed else Failed) else if dkimLive != "" then Partial else ByHand,
           if v.dmarcOk then Passed else if dmarcLive != "" then Partial else NotFound)
  }

  class TenantDomain {
    const td: Domain
    var verified: bool
    var status: VerificationStatus
    var spfStatus: RecordStatus
    var dkimStatus: RecordStatus
    var dmarcStatus: RecordStatus

    constructor (td: Domain)
      ensures this.td == td && !verified && status == Unverified
      ensures spfStatus == dkimStatus == dmarcStatus == NotChecked
    {
      this.td := td;
      verified, status := false, Unverified;
      spfStatus, dkimStatus, dmarcStatus := NotChecked, NotChecked, NotChecked;
    }

    function Record(): Fields
      reads this
    {
      Fields(spfStatus, dkimStatus, dmarcStatus)
    }

    /** The empty-domain branch returns early and leaves `verified` and the record fields as they were. */
    method CheckTenantDomainDns(settings: Settings, rx: Patterns, txt: string -> seq<string>)
      modifies this
      ensures var v := Verdict(PlanOf(td, settings, rx), rx, txt);
              && status == v.status
              && verified == (if NormalizeFqdn(td.domain) == "" then old(verified) else v.spfOk && v.dkimOk && v.complete)
      ensures Record() == if NormalizeFqdn(td.domain) == "" then old(Record()) else FieldsOf(PlanOf(td, settings, rx), rx, txt)
    {
      var plan := PlanOf(td, settings, rx);
      CheckAgainst(plan, rx, txt);
    }

    method CheckAgainst(plan: Plan, rx: Patterns, txt: string -> seq<string>)
      modifies this
      ensures var v := Verdict(plan, rx, txt);
              && status == v.status
              && verified == (if plan.d == "" then old(verified) else v.spfOk && v.dkimOk && v.complete)
              && Record() == if plan.d == "" then old(Record()) else FieldsOf(plan, rx, txt)
    {
      if plan.d == "" {
        status := FailedCheck;
        return;
      }
      var spfJoined := JoinWords(txt(plan.d));
      var spfOk := false;
      if plan.spf != "" {
        spfOk := SpfMatches(spfJoined, plan.spf, rx);
        spfStatus := if spfOk then Passed else Failed;
      } else {
        spfStatus := ByHand;
      }
      var dkimJoined := if plan.selector != "" then JoinWords(txt(plan.DkimName())) else "";
      var dkimOk := false;
      if plan.dkim != "" && plan.selector != "" {
        if DkimMatches(dkimJoined, plan.dkim, rx) {
          dkimStatus := Passed;
          dkimOk := true;
        } else {
          dkimStatus := Failed;
        }
      } else {
        dkimStatus := if dkimJoined != "" then Partial else ByHand;
      }
      var dmarcJoined := JoinWords(txt(plan.DmarcName()));
      var dmarcOk := if plan.dmarc != "" then DmarcMatches(dmarcJoined, plan.dmarc, rx) else false;
      dmarcStatus := if dmarcOk then Passed else if dmarcJoined != "" then Partial else NotFound;
      if plan.spf == "" || plan.dkim == "" {
        status, verified := PartiallyVerified, false;
        return;
      }
      if spfOk && dkimOk && dmarcOk {
        status, verified := Verified, true;
      } else if spfOk && dkimOk {
        status, verified := PartiallyVerified, true;
      } else if spfOk || dkimOk {
        status, verified := PartiallyVerified, false;
      } else {
        status, verified := FailedCheck, false;
      }
    }
  }

  // ---------------------------------------------------------------------------------------------
  // The two checks agree
  // ---------------------------------------------------------------------------------------------

  /** The customer's page shows the record, and shows it as passing. */
  predicate ShowsPassing(checked: seq<CheckedRow>, kind: Kind) {
    && (exists i :: 0 <= i < |checked| && checked[i].row.kind == kind)
    && (forall i :: 0 <= i < |checked| && checked[i].row.kind == kind ==> checked[i].status == Pass)
  }

  predicate PageAllPassing(checked: seq<CheckedRow>) {
    ShowsPassing(checked, Spf) && ShowsPassing(checked, Dkim) && ShowsPassing(checked, Dmarc)
  }

  lemma {:induction false} MxRowsAreMx(hosts: seq<string>, d: string)
    ensures forall r :: r in MxRows(hosts, d) ==> r.kind == Mx
  {
    if hosts != [] {
      MxRowsAreMx(hosts[..|hosts| - 1], d);
    }
  }

  /** The one row the page can have of a kind of authentication record, and when it has it. */
  function RowOfKind(plan: Plan, kind: Kind): Option<Row> {
    match kind
    case Spf => if plan.spf != "" then Some(Row(Spf, plan.d, plan.spf)) else None
    case Dkim => if plan.HasDkim() then Some(Row(Dkim, plan.DkimName(), plan.dkim)) else None
    case _ => Some(Row(Dmarc, plan.DmarcName(), plan.dmarc))
  }

  lemma RowsByKind(plan: Plan, r: Row)
    requires r.kind in {Spf, Dkim, Dmarc}
    ensures r in InstructionRows(plan) <==> RowOfKind(plan, r.kind) == Some(r)
  {
    MxRowsAreMx(plan.mxHosts, plan.d);
    assert r in InstructionRows(plan) <==> r in LeadingRows(plan) || r == Row(Dmarc, plan.DmarcName(), plan.dmarc);
  }

  /** Nothing matches text that is not there. */
  lemma NothingMatchesEmpty(expected: string, rx: Patterns)
    requires rx.Valid()
    ensures !SpfMatches("", expected, rx)
    ensures !DkimMatches("", expected, rx)
    ensures !DmarcMatches("", expected, rx)
  {
    var ex := Lower(Strip(expected));
    if ex != "" {
      StripStartsVisible(expected);
      assert WithoutSpaces(ex) != "";
    }
    assert Lower("") == "" && WithoutSpaces("") == "";
  }

  lemma {:induction false} StripStartsVisible(s: string)
    ensures Strip(s) != "" ==> !Space(Strip(s)[0])
    decreases |s|
  {
    if s != "" {
      if Space(s[0]) {
        StripStartsVisible(s[1..]);
      } else if Space(s[|s| - 1]) {
        StripStartsVisible(s[..|s| - 1]);
      }
    }
  }

  /** A kind of record shows as passing exactly when its one row exists and passes. */
  lemma PassingByKind(plan: Plan, rx: Patterns, answers: Answers, checked: seq<CheckedRow>, kind: Kind)
    requires Shown(InstructionRows(plan), plan, rx, answers, checked)
    requires kind in {Spf, Dkim, Dmarc}
    ensures ShowsPassing(checked, kind)
       <==> RowOfKind(plan, kind).Some? && RowStatus(plan, rx, answers, RowOfKind(plan, kind).value) == Pass
  {
    OneRowShows(plan, r => RowStatus(plan, rx, answers, r), checked, kind);
  }

  lemma OneRowShows(plan: Plan, status: Row -> CheckStatus, checked: seq<CheckedRow>, kind: Kind)
    requires var rows := InstructionRows(plan);
             |checked| == |rows| && forall i :: 0 <= i < |rows| ==> checked[i] == CheckedRow(rows[i], status(rows[i]))
    requires kind in {Spf, Dkim, Dmarc}
    ensures ShowsPassing(checked, kind) <==> RowOfKind(plan, kind).Some? && status(RowOfKind(plan, kind).value) == Pass
  {
    var rows := InstructionRows(plan);
    forall i | 0 <= i < |rows| && rows[i].kind == kind
      ensures RowOfKind(plan, kind) == Some(rows[i])
    {
      RowsByKind(plan, rows[i]);
    }
    if RowOfKind(plan, kind).Some? {
      var row := RowOfKind(plan, kind).value;
      RowsByKind(plan, row);
      var k :| 0 <= k < |rows| && rows[k] == row;
      assert checked[k].row.kind == kind;
    }
  }

  /** Main result: given the same answers and an installed DNS library, a check ends VERIFIED exactly when
      the customer's page shows SPF, DKIM and DMARC, all passing. */
  lemma ChecksAgree(td: Domain, settings: Settings, rx: Patterns, answers: Answers, checked: seq<CheckedRow>)
    requires rx.Valid() && answers.library
    requires var plan := PlanOf(td, settings, rx); Shown(InstructionRows(plan), plan, rx, answers, checked)
    ensures Verdict(PlanOf(td, settings, rx), rx, answers.txt).status == Verified <==> PageAllPassing(checked)
  {
    PlansAgree(PlanOf(td, settings, rx), rx, answers, checked);
  }

  lemma PlansAgree(plan: Plan, rx: Patterns, answers: Answers, checked: seq<CheckedRow>)
    requires rx.Valid() && answers.library && plan.dmarc != ""
    requires Shown(InstructionRows(plan), plan, rx, answers, checked)
    ensures Verdict(plan, rx, answers.txt).status == Verified <==> PageAllPassing(checked)
  {
    PassingByKind(plan, rx, answers, checked, Spf);
    PassingByKind(plan, rx, answers, checked, Dkim);
    PassingByKind(plan, rx, answers, checked, Dmarc);
    NothingMatchesEmpty(plan.spf, rx);
  }

  /** Record by record: a field says passed exactly where the page's row does, failed exactly where an SPF or DKIM
      row is missing or mismatched, and is left to be done by hand or partial where the page has no such row.  For
      DMARC, not found means that nothing is published; the row already says missing of text that is no policy. */
  lemma FieldsFollowRows(plan: Plan, rx: Patterns, answers: Answers)
    requires rx.Valid() && answers.library && plan.d != "" && plan.dmarc != ""
    ensures var f := FieldsOf(plan, rx, answers.txt);
            && FieldFollows(f.spf, StatusByKind(plan, rx, answers, Spf))
            && FieldFollows(f.dkim, StatusByKind(plan, rx, answers, Dkim))
            && (f.dmarc == Passed <==> StatusByKind(plan, rx, answers, Dmarc) == Some(Pass))
            && (f.dmarc == NotFound <==> LiveDmarc(plan, answers) == "")
            && (f.dmarc == NotFound ==> StatusByKind(plan, rx, answers, Dmarc) == Some(Missing))
  {
    DmarcFieldFollows(plan, rx, answers);
  }

  lemma DmarcFieldFollows(plan: Plan, rx: Patterns, answers: Answers)
    requires rx.Valid() && answers.library && plan.d != "" && plan.dmarc != ""
    ensures var field := FieldsOf(plan, rx, answers.txt).dmarc;
            && (field == Passed <==> StatusByKind(plan, rx, answers, Dmarc) == Some(Pass))
            && (field == NotFound <==> LiveDmarc(plan, answers) == "")
            && (field == NotFound ==> StatusByKind(plan, rx, answers, Dmarc) == Some(Missing))
  {
    NothingMatchesEmpty(plan.dmarc, rx);
    assert Lower("") == "" && !Contains("", "v=dmarc1");
  }

  /** The whole status by the page's rows: without expected SPF and DKIM values the domain stays partially verified; with them
      it is verified if all three kinds pass, partially if SPF or DKIM does, and otherwise the check has failed. */
  lemma StatusFollowsRows(plan: Plan, rx: Patterns, answers: Answers)
    requires rx.Valid() && answers.library && plan.dmarc != ""
    ensures var spf, dkim := StatusByKind(plan, rx, answers, Spf) == Some(Pass), StatusByKind(plan, rx, answers, Dkim) == Some(Pass);
            var dmarc := StatusByKind(plan, rx, answers, Dmarc) == Some(Pass);
            Verdict(plan, rx, answers.txt).status
            == if plan.d == "" then FailedCheck
               else if plan.spf == "" || plan.dkim == "" then PartiallyVerified
               else if spf && dkim && dmarc then Verified
               else if spf || dkim then PartiallyVerified else FailedCheck
  {
    NothingMatchesEmpty(plan.dmarc, rx);
  }

  function StatusByKind(plan: Plan, rx: Patterns, answers: Answers, kind: Kind): Option<CheckStatus> {
    var row := RowOfKind(plan, kind);
    if row.Some? then Some(RowStatus(plan, rx, answers, row.value)) else None
  }

  predicate FieldFollows(field: RecordStatus, shown: Option<CheckStatus>) {
    match shown
    case None => field == ByHand || field == Partial
    case Some(status) =>
      (field == Passed <==> status == Pass) && (field == Failed <==> status == Missing || status == Mismatch)
  }

  /** Without the library every lookup is empty; then no domain is verified and no row shows as passing. */
  lemma NoLibraryNoVerification(plan: Plan, rx: Patterns, answers: Answers, checked: seq<CheckedRow>, kind: Kind)
    requires rx.Valid() && !answers.library && forall q :: answers.txt(q) == []
    requires Shown(InstructionRows(plan), plan, rx, answers, checked)
    ensures Verdict(plan, rx, answers.txt).status != Verified
    ensures !ShowsPassing(checked, kind)
  {
  }

  // ---------------------------------------------------------------------------------------------
  // What makes a record pass
  // ---------------------------------------------------------------------------------------------

  /** The remaining rows: domain control and return path when they are known, and one MX row for each host and no other. */
  lemma OtherRowsShown(plan: Plan, r: Row)
    ensures r.kind == PostalVerification ==>
              (r in InstructionRows(plan) <==> plan.control != "" && r.name == plan.d && r.value == plan.control)
    ensures r.kind == ReturnPath ==>
              (r in InstructionRows(plan) <==> plan.returnName != "" && plan.returnTarget != ""
                                               && r.name == plan.returnName && r.value == plan.returnTarget)
    ensures r.kind == Mx ==>
              (r in InstructionRows(plan) <==> r.name == plan.d && exists host :: host in plan.mxHosts && r.value == "10 " + host)
  {
    MxRowsNameHosts(plan.mxHosts, plan.d, r);
    MxRowsAreMx(plan.mxHosts, plan.d);
    assert r in InstructionRows(plan)
      <==> r in LeadingRows(plan) || r in MxRows(plan.mxHosts, plan.d) || r == Row(Dmarc, plan.DmarcName(), plan.dmarc);
  }

  lemma {:induction false} MxRowsNameHosts(hosts: seq<string>, d: string, r: Row)
    ensures r in MxRows(hosts, d) <==> r.kind == Mx && r.name == d && exists host :: host in hosts && r.value == "10 " + host
  {
    if hosts != [] {
      var init, last := hosts[..|hosts| - 1], hosts[|hosts| - 1];
      MxRowsNameHosts(init, d, r);
      assert forall host :: host in hosts <==> host in init || host == last;
    }
  }

  lemma ContainsItself(s: string)
    ensures Contains(s, s)
  {
    assert StandsAt(s, s, 0);
  }

  /** Publishing exactly what the page asks for verifies the domain. */
  lemma PublishingVerifies(plan: Plan, rx: Patterns, txt: string -> seq<string>)
    requires plan.d != "" && plan.spf != "" && Strip(plan.spf) == plan.spf && plan.HasDkim()
    requires rx.dkimKey(plan.dkim) != "" && Contains(Lower(plan.dmarc), "v=dmarc1")
    requires rx.dmarcPolicy(plan.dmarc).Some? ==> Contains(Lower(plan.dmarc), "p=" + Lower(rx.dmarcPolicy(plan.dmarc).value))
    requires txt(plan.d) == [plan.spf] && txt(plan.DkimName()) == [plan.dkim] && txt(plan.DmarcName()) == [plan.dmarc]
    ensures Verdict(plan, rx, txt).status == Verified
  {
    assert JoinWords([plan.spf]) == plan.spf && JoinWords([plan.dkim]) == plan.dkim && JoinWords([plan.dmarc]) == plan.dmarc;
    ContainsItself(WithoutSpaces(Lower(plan.spf)));
    assert Lower(plan.spf) != "";
    assert |Lower(plan.dmarc)| >= 8;
  }

  /** A domain is verified only by the key that is expected, a DMARC record of the expected policy, and an SPF record that
      holds the expected text or authorises every expected include. */
  lemma VerifiedMeans(plan: Plan, rx: Patterns, txt: string -> seq<string>)
    requires Verdict(plan, rx, txt).status == Verified
    ensures plan.d != "" && plan.spf != "" && plan.selector != "" && plan.dkim != ""
    ensures rx.dkimKey(JoinWords(txt(plan.selector + "._domainkey." + plan.d))) == rx.dkimKey(plan.dkim) != ""
    ensures var dmarc, policy := Lower(JoinWords(txt("_dmarc." + plan.d))), rx.dmarcPolicy(plan.dmarc);
            Contains(dmarc, "v=dmarc1") && (policy.Some? ==> Contains(dmarc, "p=" + Lower(policy.value)))
    ensures var live, expected := Lower(JoinWords(txt(plan.d))), Lower(Strip(plan.spf));
            || Contains(WithoutSpaces(live), WithoutSpaces(expected))
            || (Contains(live, "v=spf1") && rx.includes(expected) != []
                && forall i :: 0 <= i < |rx.includes(expected)| ==> Contains(live, Lower(TrimDots(rx.includes(expected)[i]))))
  {
  }

  /** An MX row names its host in its value, and passes exactly when that host is among the live ones. */
  lemma MxRowPasses(plan: Plan, rx: Patterns, answers: Answers, host: string)
    requires answers.library && host != "" && Strip(host) == host && Hostname(host) != ""
    ensures MxHost("10 " + host) == Hostname(host)
    ensures RowStatus(plan, rx, answers, Row(Mx, plan.d, "10 " + host)) == Pass
       <==> exists i :: 0 <= i < |answers.mx(plan.d)| && answers.mx(plan.d)[i].1 == Hostname(host)
  {
    MxValueNamesHost(host);
    MxStatus(plan, rx, answers, "10 " + host);
  }

  lemma MxStatus(plan: Plan, rx: Patterns, answers: Answers, value: string)
    requires answers.library && MxHost(value) != ""
    ensures RowStatus(plan, rx, answers, Row(Mx, plan.d, value)) == Pass
       <==> exists i :: 0 <= i < |answers.mx(plan.d)| && answers.mx(plan.d)[i].1 == MxHost(value)
  {
  }

  lemma MxValueNamesHost(host: string)
    requires host != "" && Strip(host) == host
    ensures MxHost("10 " + host) == Hostname(host)
  {
    StrippedEnds(host);
    assert ("10 " + host)[|host| + 2] == host[|host| - 1];
    NothingToStrip("10 " + host);
    MxReads(host);
    LeadingBlank(host);
  }

  lemma MxReads(host: string)
    ensures AfterNumber("10 " + host) == " " + host
  {
    UpToFirst("10", ' ', host);
    assert "10 " + host == "10" + ([' '] + host);
    assert ("10 " + host)[2..] == " " + host;
  }

  lemma LeadingBlank(s: string)
    ensures Strip(" " + s) == Strip(s)
  {
    assert (" " + s)[1..] == s;
  }

  lemma {:induction false} StrippedEnds(s: string)
    ensures |Strip(s)| <= |s|
    ensures Strip(s) == s && s != "" ==> !Space(s[0]) && !Space(s[|s| - 1])
  {
    if s != "" && Space(s[0]) {
      assert |Strip(s[1..])| <= |s| - 1;
    } else if s != "" && Space(s[|s| - 1]) {
      assert |Strip(s[..|s| - 1])| <= |s| - 1;
    }
  }

  /** An authentication row that does not pass is missing if nothing of its kind is published, and mismatched otherwise. */
  lemma FailingRowsSayWhy(plan: Plan, rx: Patterns, answers: Answers, row: Row)
    requires answers.library && plan.d != "" && RowOfKind(plan, row.kind) == Some(row)
    requires RowStatus(plan, rx, answers, row) != Pass
    ensures row.kind == Spf ==>
              RowStatus(plan, rx, answers, row)
              == if Contains(Lower(JoinWords(answers.txt(plan.d))), "v=spf1") then Mismatch else Missing
    ensures row.kind == Dkim ==>
              var live := JoinWords(answers.txt(plan.selector + "._domainkey." + plan.d));
              RowStatus(plan, rx, answers, row) == if rx.dkimKey(live) != "" && rx.hasKeyTag(live) then Mismatch else Missing
    ensures row.kind == Dmarc ==>
              RowStatus(plan, rx, answers, row)
              == if Contains(Lower(JoinWords(answers.txt("_dmarc." + plan.d))), "v=dmarc1") then Mismatch else Missing
  {
    assert Lower("") == "" && !Contains("", "v=spf1");
  }

  /** The return path passes exactly when its CNAME answer is the expected host, in any case and with or without a trailing
      dot; a domain-control row exactly when the expected text is published, white space and case aside. */
  lemma OtherRowsPass(plan: Plan, rx: Patterns, answers: Answers, row: Row)
    requires answers.library
    ensures row.kind == ReturnPath ==>
              var target := answers.cname(NormalizeFqdn(row.name));
              RowStatus(plan, rx, answers, row) == if target == None then Missing
                else if TrimDots(Lower(Strip(target.value))) == TrimDots(Lower(Strip(row.value))) then Pass else Mismatch
    ensures row.kind == PostalVerification && Strip(row.value) != "" ==>
              var live := JoinWords(answers.txt(NormalizeFqdn(row.name)));
              RowStatus(plan, rx, answers, row) == Pass
              <==> Contains(Lower(WithoutSpaces(live)), Lower(WithoutSpaces(Strip(row.value)))) || Contains(live, Strip(row.value))
  {
  }

  // ---------------------------------------------------------------------------------------------
  // The dispatch gate
  // ---------------------------------------------------------------------------------------------

  datatype GateRow = GateRow(domain: string, verified: bool, status: VerificationStatus)

  predicate Owns(domain: string, host: string) {
    var cfg := NormalizeFqdn(domain);
    cfg != "" && (host == cfg || (|host| > |cfg| && host[|host| - |cfg| - 1..] == "." + cfg))
  }

  /** The tenant's first domain row the sender's host belongs to. */
  function FirstOwner(rows: seq<GateRow>, host: string): Option<GateRow> {
    if rows == [] then None else if Owns(rows[0].domain, host) then Some(rows[0]) else FirstOwner(rows[1..], host)
  }

  /** `dispatch_should_block_unverified_managed_domain`; `host` is the domain part of the From address. */
  predicate Blocks(postal: bool, allowUnverified: bool, bypass: bool, rows: seq<GateRow>, host: string) {
    var h := Hostname(host);
    postal && !allowUnverified && !bypass && host != "" && h != ""
    && var owner := FirstOwner(rows, h); owner.Some? && !(owner.value.verified && owner.value.status == Verified)
  }

  /** A domain row covers its own host and every subdomain of it. */
  lemma OwnsSubdomains(domain: string, host: string)
    ensures var cfg := NormalizeFqdn(domain);
            Owns(domain, host) <==> cfg != "" && (host == cfg || exists sub :: host == sub + ("." + cfg))
  {
    var cfg := NormalizeFqdn(domain);
    if |host| > |cfg| && host[|host| - |cfg| - 1..] == "." + cfg {
      assert host == host[..|host| - |cfg| - 1] + ("." + cfg);
    }
    forall sub | host == sub + ("." + cfg)
      ensures |host| > |cfg| && host[|host| - |cfg| - 1..] == "." + cfg
    {
    }
  }

  /** The gate is open to other providers, under the operator's override, for messages exempted, and for hosts no domain row
      of the tenant covers. */
  lemma GateIsOpen(postal: bool, allowUnverified: bool, bypass: bool, rows: seq<GateRow>, host: string)
    requires !postal || allowUnverified || bypass || forall k :: 0 <= k < |rows| ==> !Owns(rows[k].domain, Hostname(host))
    ensures !Blocks(postal, allowUnverified, bypass, rows, host)
  {
    if forall k :: 0 <= k < |rows| ==> !Owns(rows[k].domain, Hostname(host)) {
      NoOwner(rows, Hostname(host));
    }
  }

  lemma {:induction false} NoOwner(rows: seq<GateRow>, host: string)
    requires forall k :: 0 <= k < |rows| ==> !Owns(rows[k].domain, host)
    ensures FirstOwner(rows, host) == None
  {
    if rows != [] {
      NoOwner(rows[1..], host);
    }
  }

  /** End to end: once a managed domain has been checked, its mail passes the gate exactly when the
      customer's page shows SPF, DKIM and DMARC passing, whatever `verified` was before the check. */
  lemma GateFollowsPage(td: Domain, settings: Settings, rx: Patterns, answers: Answers, checked: seq<CheckedRow>,
                        rows: seq<GateRow>, host: string, row: GateRow)
    requires rx.Valid() && answers.library
    requires var plan := PlanOf(td, settings, rx); Shown(InstructionRows(plan), plan, rx, answers, checked)
    requires host != "" && Hostname(host) != "" && FirstOwner(rows, Hostname(host)) == Some(row)
    requires row.status == Verdict(PlanOf(td, settings, rx), rx, answers.txt).status
    requires NormalizeFqdn(td.domain) != "" ==>
               var v := Verdict(PlanOf(td, settings, rx), rx, answers.txt); row.verified == (v.spfOk && v.dkimOk && v.complete)
    ensures Blocks(true, false, false, rows, host) <==> !PageAllPassing(checked)
  {
    ChecksAgree(td, settings, rx, answers, checked);
  }
}

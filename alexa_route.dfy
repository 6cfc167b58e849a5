/** The Alexa endpoint's request authentication (routes/sonos-alexa.js): the
    certificate-chain URL a request names is checked before anything is
    fetched, and the fetched PEM text is cut into certificates at their
    encapsulation boundaries (section 2 of RFC 7468). */
module AlexaRoute {
  import opened Wrappers
  import Text

  // ---------------------------------------------------------------------
  // getCerts
  // ---------------------------------------------------------------------

  /** The post-encapsulation boundary that closes a certificate. */
  const CertEnd: string := "-END CERTIFICATE-"

  /** `CERT_END.test(line)`. */
  predicate IsEnd(line: string) {
    Text.Contains(line, CertEnd)
  }

  /** The lines cut into the complete certificates (each a run of lines
      ending at an END line) and the lines of the certificate still open. */
  datatype Cut = Cut(groups: seq<seq<string>>, open: seq<string>)

  /** How the lines seen so far are cut, one line at a time. */
  function CutLines(lines: seq<string>): (c: Cut)
    decreases |lines|
  {
    if lines == [] then Cut([], [])
    else
      var prev := CutLines(lines[..|lines| - 1]);
      var line := lines[|lines| - 1];
      if IsEnd(line) then Cut(prev.groups + [prev.open + [line]], [])
      else Cut(prev.groups, prev.open + [line])
  }

  /** The lines of a sequence of groups, in order. */
  function Flatten(groups: seq<seq<string>>): seq<string>
    decreases |groups|
  {
    if groups == [] then [] else Flatten(groups[..|groups| - 1]) + groups[|groups| - 1]
  }

  /** Number of END lines. */
  function CountEnds(lines: seq<string>): nat
    decreases |lines|
  {
    if lines == [] then 0
    else CountEnds(lines[..|lines| - 1]) + (if IsEnd(lines[|lines| - 1]) then 1 else 0)
  }

  /** A certificate's lines: non-empty, ending at an END line, and no END line
      before that. */
  predicate WellCut(group: seq<string>) {
    group != [] && IsEnd(group[|group| - 1]) &&
    forall j :: 0 <= j < |group| - 1 ==> !IsEnd(group[j])
  }

  /** The certificates and the open tail hold every line, in order. */
  lemma {:induction false} CutFlattens(lines: seq<string>)
    ensures Flatten(CutLines(lines).groups) + CutLines(lines).open == lines
    decreases |lines|
  {
    if lines != [] {
      var init := lines[..|lines| - 1];
      var line := lines[|lines| - 1];
      var prev := CutLines(init);
      CutFlattens(init);
      var c := CutLines(lines);
      if IsEnd(line) {
        assert c.groups[..|c.groups| - 1] == prev.groups;
        assert Flatten(c.groups) == Flatten(prev.groups) + (prev.open + [line]);
      }
      assert lines == init + [line];
    }
  }

  /** Every certificate is a run of lines closed by its only END line, and
      the open tail holds no END line. */
  lemma {:induction false} CutWellFormed(lines: seq<string>)
    ensures forall i :: 0 <= i < |CutLines(lines).groups| ==> WellCut(CutLines(lines).groups[i])
    ensures forall j :: 0 <= j < |CutLines(lines).open| ==> !IsEnd(CutLines(lines).open[j])
    decreases |lines|
  {
    if lines != [] {
      var init := lines[..|lines| - 1];
      var line := lines[|lines| - 1];
      var prev := CutLines(init);
      CutWellFormed(init);
      if IsEnd(line) {
        var g := prev.open + [line];
        assert WellCut(g) by {
          forall j | 0 <= j < |g| - 1
            ensures !IsEnd(g[j])
          {
            assert g[j] == prev.open[j];
          }
        }
      }
    }
  }

  /** One certificate per END line. */
  lemma {:induction false} CutCounts(lines: seq<string>)
    ensures |CutLines(lines).groups| == CountEnds(lines)
    decreases |lines|
  {
    if lines != [] {
      CutCounts(lines[..|lines| - 1]);
    }
  }

  /** The certificates text: each group joined with line feeds. */
  function Joined(groups: seq<seq<string>>): (certs: seq<string>)
    ensures |certs| == |groups|
  {
    seq(|groups|, i requires 0 <= i < |groups| => Text.Join(groups[i], "\n"))
  }

  /** `getCerts`: pushes every line into the open certificate and closes it at
      each END line; lines after the last END line are dropped. */
  method GetCerts(data: string) returns (certs: seq<string>)
    ensures var lines := Text.Split(data, '\n');
      certs == Joined(CutLines(lines).groups) && |certs| == CountEnds(lines)
  {
    var lines := Text.Split(data, '\n');
    certs := [];
    var currentCert: seq<string> := [];
    var i := 0;
    while i < |lines|
      invariant 0 <= i <= |lines|
      invariant certs == Joined(CutLines(lines[..i]).groups)
      invariant currentCert == CutLines(lines[..i]).open
    {
      assert lines[..i + 1][..i] == lines[..i];
      var line := lines[i];
      currentCert := currentCert + [line];
      if Text.Contains(line, CertEnd) {
        certs := certs + [Text.Join(currentCert, "\n")];
        currentCert := [];
      }
      i := i + 1;
    }
    assert lines[..i] == lines;
    CutCounts(lines);
  }

  // ---------------------------------------------------------------------
  // The certificate-URL check of validateSignature
  // ---------------------------------------------------------------------

  /** The parts of the parsed `SignatureCertChainUrl` header that the check
      reads; `None` stands for a part the parser leaves `null`. */
  datatype CertUrl = CertUrl(protocol: Option<string>, port: Option<string>,
                             hostname: Option<string>, pathname: string)

  /** The first step of `validateSignature`: reject the URL, or fetch the
      certificate chain from it. */
  datatype Step = Rejected(reason: string) | Fetch(url: CertUrl)

  /** The URL test as the code writes it, a chain of refusals. */
  function CheckCertUrl(u: CertUrl): (s: Step)
    ensures s.Fetch? ==> s.url == u
    ensures s.Rejected? ==> s.reason == "invalid url"
  {
    if u.protocol != Some("https:") ||
       (u.port.Some? && u.port != Some("443")) ||
       u.hostname != Some("s3.amazonaws.com") ||
       Text.IndexOf(u.pathname, "/echo.api/", 0) != 0
    then Rejected("invalid url")
    else Fetch(u)
  }

  /** The certificate is fetched exactly when the URL is an https URL on the
      default port of s3.amazonaws.com under `/echo.api/`; otherwise the
      request is refused without a fetch. */
  lemma CertUrlAccepted(u: CertUrl)
    ensures CheckCertUrl(u).Fetch? <==>
      u.protocol == Some("https:") &&
      (u.port == None || u.port == Some("443")) &&
      u.hostname == Some("s3.amazonaws.com") &&
      Text.StartsWith(u.pathname, "/echo.api/")
  {
    IndexZeroIsPrefix(u.pathname, "/echo.api/");
  }

  /** `s.indexOf(pat) === 0` is `s.startsWith(pat)`. */
  lemma IndexZeroIsPrefix(s: string, pat: string)
    ensures Text.IndexOf(s, pat, 0) == 0 <==> Text.StartsWith(s, pat)
  {
    if Text.StartsWith(s, pat) {
      assert Text.OccursAt(s, pat, 0);
    }
  }
}

/**
 * The fixtures of the cascading-scans tests, evaluated in the model: each
 * lemma states the output the test expects.
 */
module Scenarios {
  import opened Wrappers
  import opened Strings
  import opened Model
  import opened Matcher
  import opened Chain
  import opened Template
  import opened Engine
  import opened Inheritance

  /** The TLS rule's second parameter, built from its two placeholders. */
  const Target: string := Tag("$.hostOrIP") + ":" + Tag("attributes.port")

  lemma TargetText()
    ensures Target == "{{$.hostOrIP}}:{{attributes.port}}"
  {
    TagHost();
    TagPort();
    TargetPieces();
  }

  lemma TargetPieces()
    ensures "{{$.hostOrIP}}" + ":" + "{{attributes.port}}" == "{{$.hostOrIP}}:{{attributes.port}}"
  {
  }

  function ParentNamed(name: string, annotations: Option<StringMap>): ParentScan {
    ParentScan(name, None, annotations, "nmap", CascadeSpec(None, None))
  }

  const Parent: ParentScan := ParentNamed("nmap-foobar.com", Some(map[]))

  const TlsRule: Rule := Rule(
    "tls-scans",
    [ Clause(Some("Open Port"), map["port" := Num(443), "service" := Str("https")]),
      Clause(Some("Open Port"), map["service" := Str("https")]) ],
    "sslyze", ["--regular", Target], None, map[], map[])

  function OpenPort(port: int, service: string, host: Attributes, id: Option<string>): Finding {
    Finding(
      "Port " + IntToString(port) + " is open", "Open Port",
      host["state" := Str("open")]["port" := Num(port)]["service" := Str(service)],
      id)
  }

  const Https: Finding := OpenPort(443, "https", map["hostname" := Str("foobar.com")], None)

  /** The definition the tests expect for the TLS rule. */
  function Expected(name: string, p: ParentScan, f: Finding, target: string): ScanDefinition {
    ScanDefinition(name, "sslyze", ["--regular", target], p.cascades, "tls-scans", None, map[], map[], f)
  }

  /** Two placeholders around a literal separator render to the two values around it. */
  lemma RenderTwoTags(a: string, sep: string, b: string, f: Finding, p: ParentScan)
    requires '}' !in a && '}' !in b && '{' !in sep
    ensures Render(Tag(a) + sep + Tag(b), f, p) == Lookup(a, f, p) + sep + Lookup(b, f, p)
  {
    var rest := sep + Tag(b);
    assert Tag(a) + sep + Tag(b) == Tag(a) + rest;
    RenderPlaceholder(a, rest, f, p);
    RenderLiteralPrefix(sep, Tag(b), f, p);
    RenderLoneTag(b, f, p);
  }

  /** The TLS rule's target parameter renders as host or IP, a colon and the port. */
  lemma RenderTarget(f: Finding, p: ParentScan)
    ensures Render(Target, f, p)
            == Stringify(HostOrIP(f.attributes)) + ":" + Lookup("attributes.port", f, p)
  {
    RenderTwoTags("$.hostOrIP", ":", "attributes.port", f, p);
  }

  lemma RenderPort(f: Finding, p: ParentScan, port: int)
    requires "port" in f.attributes && f.attributes["port"] == Num(port)
    ensures Lookup("attributes.port", f, p) == IntToString(port)
  {
    assert "attributes.port" == "attributes." + "port";
    LookupAttribute("port", f, p);
  }

  lemma RenderRegular(f: Finding, p: ParentScan)
    ensures Render("--regular", f, p) == "--regular"
  {
    assert "--regular" == "--regular" + "";
    RenderLiteralPrefix("--regular", "", f, p);
  }

  lemma Digits443()
    ensures IntToString(443) == "443"
  {
  }

  /** The parameters of the TLS rule for a finding whose host or IP and port are given. */
  lemma TlsParameters(f: Finding, p: ParentScan, host: string, port: int)
    requires Stringify(HostOrIP(f.attributes)) == host
    requires "port" in f.attributes && f.attributes["port"] == Num(port)
    ensures RenderAll(TlsRule.parameters, f, p) == ["--regular", host + ":" + IntToString(port)]
  {
    var r := RenderAll(TlsRule.parameters, f, p);
    RenderRegular(f, p);
    RenderTarget(f, p);
    RenderPort(f, p, port);
    assert r[0] == "--regular";
    assert r[1] == host + ":" + IntToString(port);
  }

  lemma SslyzeName()
    ensures Naming.CascadedName("nmap-foobar.com", "nmap", "sslyze", "tls-scans") == "sslyze-foobar.com-tls-scans"
  {
    Naming.PrefixedParentName("foobar.com", "nmap", "sslyze", "tls-scans");
    NmapFoobar();
    SslyzeFoobar();
  }

  lemma NmapFoobar()
    ensures "nmap" + "-" + "foobar.com" == "nmap-foobar.com"
  {
  }

  lemma SslyzeFoobar()
    ensures "sslyze" + "-" + "foobar.com" + "-" + "tls-scans" == "sslyze-foobar.com-tls-scans"
  {
  }

  lemma Target443()
    ensures "foobar.com" + ":" + IntToString(443) == "foobar.com:443"
  {
    Digits443();
  }

  lemma Target8443()
    ensures "foobar.com" + ":" + IntToString(8443) == "foobar.com:8443"
  {
    Digits8443();
  }

  /**
   * A rule shaped like the TLS rule (same name, scan type, parameters and no
   * labels or annotations) that fires on a finding gives exactly the expected
   * sslyze definition, with the rule's `env`.
   */
  lemma TlsScan(p: ParentScan, f: Finding, r: Rule, host: string, port: int)
    requires r.name == TlsRule.name && r.scanType == TlsRule.scanType && r.parameters == TlsRule.parameters
    requires r.scanLabels == map[] && r.scanAnnotations == map[]
    requires Fires(p, f, r)
    requires Stringify(HostOrIP(f.attributes)) == host
    requires "port" in f.attributes && f.attributes["port"] == Num(port)
    ensures CascadingScans(p, [f], [r])
            == [Expected(Naming.CascadedName(p.name, p.scanType, "sslyze", "tls-scans"), p, f,
                         host + ":" + IntToString(port)).(env := r.env)]
  {
    OnePairOneScan(p, f, r);
    TlsParameters(f, p, host, port);
    assert RenderValues(map[], f, p) == map[];
  }

  /** hook.test.js: an open HTTPS port on a host yields one sslyze scan on host:443. */
  lemma HttpsPortScenario()
    ensures CascadingScans(Parent, [Https], [TlsRule])
            == [Expected("sslyze-foobar.com-tls-scans", Parent, Https, "foobar.com:443")]
  {    assert ClauseMatches(Https, TlsRule.anyOf[0]);
    assert !HasFired(Parent.annotations, TlsRule.name);
    TlsScan(Parent, Https, TlsRule, "foobar.com", 443);
    Target443();
    SslyzeName();
  }

  lemma Digits8443()
    ensures IntToString(8443) == "8443"
  {
  }

  /** hook.test.js: a parent with a free-form name and a finding with only an IP address. */
  lemma IpAddressScenario()
    ensures
      var p := ParentNamed("foobar.com", Some(map[]));
      var f := OpenPort(443, "https", map["hostname" := Undefined, "ip_address" := Str("10.42.42.42")], None);
      CascadingScans(p, [f], [TlsRule]) == [Expected("foobar.com-tls-scans", p, f, "10.42.42.42:443")]
  {    var p := ParentNamed("foobar.com", Some(map[]));
    var f := OpenPort(443, "https", map["hostname" := Undefined, "ip_address" := Str("10.42.42.42")], None);
    assert ClauseMatches(f, TlsRule.anyOf[0]);
    assert !HasFired(p.annotations, TlsRule.name);
    assert HostOrIP(f.attributes) == Str("10.42.42.42");
    TlsScan(p, f, TlsRule, "10.42.42.42", 443);
    IpTarget();
    FreeFormName();
  }

  lemma IpTarget()
    ensures "10.42.42.42" + ":" + IntToString(443) == "10.42.42.42:443"
  {
    Digits443();
  }

  lemma FreeFormName()
    ensures Naming.CascadedName("foobar.com", "nmap", "sslyze", "tls-scans") == "foobar.com-tls-scans"
  {
    assert !Strings.StartsWith("foobar.com", "nmap" + "-") by {
      assert "foobar.com"[0] != ("nmap" + "-")[0];
    }
    assert "foobar.com" + "-" + "tls-scans" == "foobar.com-tls-scans";
  }

  /** hook.test.js: the rule is already in the parent's chain, so nothing is generated. */
  lemma ChainScenario()
    ensures CascadingScans(ParentNamed("nmap-foobar.com", Some(map[ChainKey := "tls-scans"])), [Https], [TlsRule]) == []
  {
    var p := ParentNamed("nmap-foobar.com", Some(map[ChainKey := "tls-scans"]));
    HasFiredIffListed(["tls-scans"], map[], "tls-scans");
    assert map[][ChainKey := Strings.Join(["tls-scans"], ',')] == map[ChainKey := "tls-scans"];
    OnePairOneScan(p, Https, TlsRule);
  }

  /** hook.test.js: a parent without annotations is treated as having no chain. */
  lemma NoAnnotationsScenario()
    ensures
      var p := ParentNamed("nmap-foobar.com", None);
      CascadingScans(p, [Https], [TlsRule]) == [Expected("sslyze-foobar.com-tls-scans", p, Https, "foobar.com:443")]
  {    var p := ParentNamed("nmap-foobar.com", None);
    assert ClauseMatches(Https, TlsRule.anyOf[0]);
    NoChainNoBlock(p.annotations, TlsRule.name);
    TlsScan(p, Https, TlsRule, "foobar.com", 443);
    Target443();
    SslyzeName();
  }

  /** hook.test.js: the rule's `env` entries are copied to the scan as they are. */
  lemma EnvScenario(e: EnvVar)
    ensures
      var r := TlsRule.(env := Some([e]));
      CascadingScans(Parent, [Https], [r])
      == [Expected("sslyze-foobar.com-tls-scans", Parent, Https, "foobar.com:443").(env := Some([e]))]
  {    var r := TlsRule.(env := Some([e]));
    assert ClauseMatches(Https, r.anyOf[0]);
    assert !HasFired(Parent.annotations, r.name);
    TlsScan(Parent, Https, r, "foobar.com", 443);
    Target443();
    SslyzeName();
  }

  /** The rule of the wildcard test: port 8443 exactly, any service starting with `https`. */
  const WildcardRule: Rule :=
    TlsRule.(anyOf := [Clause(Some("Open Port"), map["port" := Num(8443), "service" := Str("https*")])])

  /** hook.test.js: `https*` matches the service `https-alt`, and the port must be 8443 exactly. */
  lemma WildcardScenario()
    ensures
      var f := OpenPort(8443, "https-alt", map["hostname" := Str("foobar.com")], None);
      CascadingScans(Parent, [f], [WildcardRule]) == [Expected("sslyze-foobar.com-tls-scans", Parent, f, "foobar.com:8443")]
  {    var r := WildcardRule;
    var f := OpenPort(8443, "https-alt", map["hostname" := Str("foobar.com")], None);
    WildcardIsPrefix("https-alt", "https");
    assert "https" + "*" == "https*";
    assert Strings.StartsWith("https-alt", "https");
    assert ClauseMatches(f, r.anyOf[0]);
    assert !HasFired(Parent.annotations, r.name);
    TlsScan(Parent, f, r, "foobar.com", 8443);
    Target8443();
    SslyzeName();
  }

  /**
   * In the wildcard rule the port is not a wildcard: `https-alt` on port 443
   * gives no scan, and the text "8443" does not match the number 8443.
   */
  lemma WildcardNeedsExactPort()
    ensures CascadingScans(Parent, [OpenPort(443, "https-alt", map["hostname" := Str("foobar.com")], None)], [WildcardRule]) == []
    ensures !ValueMatches(Str("8443"), Num(8443))
  {
    var f := OpenPort(443, "https-alt", map["hostname" := Str("foobar.com")], None);
    assert !ClauseMatches(f, WildcardRule.anyOf[0]) by {
      assert f.attributes["port"] == Num(443);
    }
    OnePairOneScan(Parent, f, WildcardRule);
  }

  /** `https*` does not match `http`, which is shorter than its prefix. */
  lemma WildcardRejectsHttp()
    ensures !ValueMatches(Str("http"), Str("https*"))
  {
    WildcardIsPrefix("http", "https");
    assert "https" + "*" == "https*";
  }

  const ParentLabels: StringMap := map["organization" := "OWASP", "location" := "barcelona", "vlan" := "lan"]

  const ParentAnnotations: StringMap := map[
    "defectdojo.securecodebox.io/product-name" := "barcelona-network-sca",
    "defectdojo.securecodebox.io/engagement-name" := "scb-automated-scan"]

  lemma NoChainInParentAnnotations()
    ensures !HasFired(Some(ParentAnnotations), TlsRule.name)
  {
    assert ChainKey !in ParentAnnotations by {
      assert ChainKey[0] == 'c';
    }
    NoChainNoBlock(Some(ParentAnnotations), TlsRule.name);
  }

  /** Whatever parent the TLS rule and the HTTPS finding meet, the only definition is theirs. */
  lemma OnlyHttpsDefinition(p: ParentScan, r: Rule, d: ScanDefinition)
    requires d in CascadingScans(p, [Https], [r])
    ensures d == Definition(p, Https, r)
  {
    CascadingScansMembers(p, [Https], [r], d);
  }

  /**
   * hook.test.js: the parent's labels all reach the created scan when
   * `inheritLabels` is unset or true, and not when it is false.
   */
  lemma LabelInheritanceScenario(flag: Option<bool>)
    ensures
      var p := Parent.(labels := Some(ParentLabels), cascades := CascadeSpec(flag, None));
      && |CascadingScans(p, [Https], [TlsRule])| == 1
      && forall d :: d in CascadingScans(p, [Https], [TlsRule]) ==>
        (PairsIn(ParentLabels, CascadingScanMetadata(d, p).labels) <==> flag != Some(false))
  {
    var p := Parent.(labels := Some(ParentLabels), cascades := CascadeSpec(flag, None));
    assert ClauseMatches(Https, TlsRule.anyOf[0]);
    assert !HasFired(p.annotations, TlsRule.name);
    OnePairOneScan(p, Https, TlsRule);
    forall d | d in CascadingScans(p, [Https], [TlsRule])
      ensures PairsIn(ParentLabels, CascadingScanMetadata(d, p).labels) <==> flag != Some(false)
    {
      OnlyHttpsDefinition(p, TlsRule, d);
      assert d.scanLabels == map[];
      if flag == Some(false) {
        NotInheritedLabels(d, p, ParentLabels);
        assert "organization" in ParentLabels;
      } else {
        InheritedLabels(d, p, ParentLabels);
      }
    }
  }

  /**
   * hook.test.js: the parent's annotations all reach the created scan when
   * `inheritAnnotations` is unset or true, and not when it is false.
   */
  lemma AnnotationInheritanceScenario(flag: Option<bool>)
    ensures
      var p := Parent.(annotations := Some(ParentAnnotations), cascades := CascadeSpec(None, flag));
      && |CascadingScans(p, [Https], [TlsRule])| == 1
      && forall d :: d in CascadingScans(p, [Https], [TlsRule]) ==>
        (PairsIn(ParentAnnotations, CascadingScanMetadata(d, p).annotations) <==> flag != Some(false))
  {
    var p := Parent.(annotations := Some(ParentAnnotations), cascades := CascadeSpec(None, flag));
    assert ClauseMatches(Https, TlsRule.anyOf[0]);
    NoChainInParentAnnotations();
    OnePairOneScan(p, Https, TlsRule);
    forall d | d in CascadingScans(p, [Https], [TlsRule])
      ensures PairsIn(ParentAnnotations, CascadingScanMetadata(d, p).annotations) <==> flag != Some(false)
    {
      OnlyHttpsDefinition(p, TlsRule, d);
      assert d.scanAnnotations == map[];
      assert MatchedFinding(Https) == map[];
      if flag == Some(false) {
        NotInheritedAnnotations(d, p, ParentAnnotations);
        assert "defectdojo.securecodebox.io/product-name" in ParentAnnotations;
      } else {
        InheritedAnnotations(d, p, ParentAnnotations);
      }
    }
  }

  const Plain: StringMap := map["k_one" := "v_one", "k_two" := "v_two"]

  lemma RenderPlainValues(f: Finding, p: ParentScan)
    ensures RenderValues(Plain, f, p) == Plain
  {
    RenderLiteralPrefix("v_one", "", f, p);
    RenderLiteralPrefix("v_two", "", f, p);
    assert "v_one" + "" == "v_one" && "v_two" + "" == "v_two";
  }

  /** hook.test.js: the rule's `scanLabels` are in the definition and in the created scan. */
  lemma RuleLabelsScenario()
    ensures
      var r := TlsRule.(scanLabels := Plain);
      var ds := CascadingScans(Parent, [Https], [r]);
      |ds| == 1 && ds[0].scanLabels == Plain && PairsIn(Plain, CascadingScanMetadata(ds[0], Parent).labels)
  {
    var r := TlsRule.(scanLabels := Plain);
    assert ClauseMatches(Https, r.anyOf[0]);
    assert !HasFired(Parent.annotations, r.name);
    OnePairOneScan(Parent, Https, r);
    RenderPlainValues(Https, Parent);
    RuleEntriesAndMatchedFinding(Definition(Parent, Https, r), Parent);
  }

  /** hook.test.js: the rule's `scanAnnotations` are in the definition and in the created scan. */
  lemma RuleAnnotationsScenario()
    ensures
      var r := TlsRule.(scanAnnotations := Plain);
      var ds := CascadingScans(Parent, [Https], [r]);
      |ds| == 1 && ds[0].scanAnnotations == Plain && PairsIn(Plain, CascadingScanMetadata(ds[0], Parent).annotations)
  {
    var r := TlsRule.(scanAnnotations := Plain);
    assert ClauseMatches(Https, r.anyOf[0]);
    assert !HasFired(Parent.annotations, r.name);
    OnePairOneScan(Parent, Https, r);
    RenderPlainValues(Https, Parent);
    var d := Definition(Parent, Https, r);
    assert d.scanAnnotations == Plain && d.finding.id.None?;
    assert MatchedFinding(d.finding) == map[];
    assert CascadingScanMetadata(d, Parent).annotations
           == MergeInherited(Parent.annotations, Plain, Parent.cascades.inheritAnnotations);
  }

  /** The templated values of the label and annotation test, built from their placeholders. */
  const Templated: StringMap := map[
    "k_one" := Tag("metadata.name"),
    "k_two" := Tag("metadata.unknown_property"),
    "k_three" := Tag("$.hostOrIP")]

  lemma TemplatedText()
    ensures Templated == map[
      "k_one" := "{{metadata.name}}",
      "k_two" := "{{metadata.unknown_property}}",
      "k_three" := "{{$.hostOrIP}}"]
  {
    TagName();
    TagUnknown();
    TagHost();
  }

  lemma TagName()
    ensures Tag("metadata.name") == "{{metadata.name}}"
  {
  }

  lemma TagUnknown()
    ensures Tag("metadata.unknown_property") == "{{metadata.unknown_property}}"
  {
  }

  lemma TagHost()
    ensures Tag("$.hostOrIP") == "{{$.hostOrIP}}"
  {
  }

  lemma TagPort()
    ensures Tag("attributes.port") == "{{attributes.port}}"
  {
  }

  /** Rendering a lone placeholder gives what its path resolves to. */
  lemma RenderLoneTag(path: string, f: Finding, p: ParentScan)
    requires '}' !in path
    ensures Render(Tag(path), f, p) == Lookup(path, f, p)
  {
    RenderPlaceholder(path, "", f, p);
    assert Tag(path) + "" == Tag(path);
  }

  const TemplatedResult: StringMap := map["k_one" := "nmap-foobar.com", "k_two" := "", "k_three" := "foobar.com"]

  lemma UnknownPropertyEmpty(f: Finding, p: ParentScan)
    ensures Lookup("metadata.unknown_property", f, p) == ""
  {
    UnknownPropertyPath();
    UnknownPropertyField();
    UnknownMetadataIsEmpty("unknown_property", f, p);
  }

  lemma UnknownPropertyPath()
    ensures "metadata." + "unknown_property" == "metadata.unknown_property"
  {
  }

  lemma UnknownPropertyField()
    ensures '.' !in "unknown_property"
    ensures "unknown_property" != "name" && "unknown_property" != "labels" && "unknown_property" != "annotations"
  {
    assert |"unknown_property"| == 16;
  }

  lemma RenderName()
    ensures Render(Tag("metadata.name"), Https, Parent) == "nmap-foobar.com"
  {
    RenderLoneTag("metadata.name", Https, Parent);
  }

  lemma RenderUnknown()
    ensures Render(Tag("metadata.unknown_property"), Https, Parent) == ""
  {
    RenderLoneTag("metadata.unknown_property", Https, Parent);
    UnknownPropertyEmpty(Https, Parent);
  }

  lemma RenderHost()
    ensures Render(Tag("$.hostOrIP"), Https, Parent) == "foobar.com"
  {
    RenderLoneTag("$.hostOrIP", Https, Parent);
  }

  /** Rendering a three-entry map renders each value in place. */
  lemma RenderThree(k1: string, v1: string, k2: string, v2: string, k3: string, v3: string, f: Finding, p: ParentScan)
    requires k1 != k2 && k1 != k3 && k2 != k3
    ensures RenderValues(map[k1 := v1, k2 := v2, k3 := v3], f, p)
            == map[k1 := Render(v1, f, p), k2 := Render(v2, f, p), k3 := Render(v3, f, p)]
  {
  }

  lemma RenderTemplated()
    ensures RenderValues(Templated, Https, Parent) == TemplatedResult
  {
    RenderThree("k_one", Tag("metadata.name"), "k_two", Tag("metadata.unknown_property"),
                "k_three", Tag("$.hostOrIP"), Https, Parent);
    RenderName();
    RenderUnknown();
    RenderHost();
  }

  /**
   * hook.test.js: `{{metadata.name}}` gives the parent's name,
   * `{{metadata.unknown_property}}` gives "" and `{{$.hostOrIP}}` the host.
   */
  lemma TemplatedMetadataScenario()
    ensures
      var r := TlsRule.(scanLabels := Templated, scanAnnotations := Templated);
      var ds := CascadingScans(Parent, [Https], [r]);
      |ds| == 1 && ds[0].scanLabels == TemplatedResult && ds[0].scanAnnotations == TemplatedResult
  {
    var r := TlsRule.(scanLabels := Templated, scanAnnotations := Templated);
    assert ClauseMatches(Https, r.anyOf[0]);
    assert !HasFired(Parent.annotations, r.name);
    OnePairOneScan(Parent, Https, r);
    RenderTemplated();
  }

  const FirstId: string := "random-id"
  const SecondId: string := "f0c718bd-9987-42c8-2259-73794e61dd5a"

  lemma UnknownServiceDoesNotMatch(f: Finding)
    requires f == OpenPort(12345, "unknown", map["hostname" := Str("foobar.com")], Some(FirstId))
    ensures !RuleMatches(f, TlsRule)
  {
    assert !ClauseMatches(f, TlsRule.anyOf[0]) by {
      assert f.attributes["port"] == Num(12345);
    }
    assert !ClauseMatches(f, TlsRule.anyOf[1]) by {
      assert f.attributes["service"] == Str("unknown");
    }
  }

  lemma HttpsWithIdScan(f: Finding)
    requires f == OpenPort(443, "https", map["hostname" := Str("foobar.com")], Some(SecondId))
    ensures CascadingScans(Parent, [f], [TlsRule]) == [Expected("sslyze-foobar.com-tls-scans", Parent, f, "foobar.com:443")]
  {    assert ClauseMatches(f, TlsRule.anyOf[0]);
    assert !HasFired(Parent.annotations, TlsRule.name);
    TlsScan(Parent, f, TlsRule, "foobar.com", 443);
    Target443();
    SslyzeName();
  }

  /**
   * hook.test.js: of two findings only the HTTPS one matches; its definition
   * carries it with its id, and so does the created scan's matched-finding
   * annotation.
   */
  lemma MatchedFindingScenario()
    ensures
      var host := map["hostname" := Str("foobar.com")];
      var unknown := OpenPort(12345, "unknown", host, Some(FirstId));
      var https := OpenPort(443, "https", host, Some(SecondId));
      var ds := CascadingScans(Parent, [unknown, https], [TlsRule]);
      && ds == [Expected("sslyze-foobar.com-tls-scans", Parent, https, "foobar.com:443")]
      && CascadingScanMetadata(ds[0], Parent).annotations[MatchedFindingKey] == SecondId
  {
    var host := map["hostname" := Str("foobar.com")];
    var unknown := OpenPort(12345, "unknown", host, Some(FirstId));
    var https := OpenPort(443, "https", host, Some(SecondId));
    UnknownServiceDoesNotMatch(unknown);
    OnePairOneScan(Parent, unknown, TlsRule);
    HttpsWithIdScan(https);
    CascadingScansAppend(Parent, [unknown], [https], [TlsRule]);
    assert [unknown] + [https] == [unknown, https];
    var d := Expected("sslyze-foobar.com-tls-scans", Parent, https, "foobar.com:443");
    RuleEntriesAndMatchedFinding(d, Parent);
  }
}

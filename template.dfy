/**
 * The template resolver: `{{path}}` placeholders in rule parameters, label
 * values and annotation values are replaced by the value found along `path`
 * in a context made of the finding's attributes, the parent scan's metadata
 * and the helper `$.hostOrIP`; a path that leads nowhere gives "".
 */
module Template {
  import opened Wrappers
  import opened Strings
  import opened Model

  /** How a scalar is written into a template. */
  function Stringify(v: Value): string {
    match v
    case Str(s) => s
    case Num(n) => IntToString(n)
    case Bool(b) => if b then "true" else "false"
    case Undefined => ""
  }

  /** JavaScript truthiness of a scalar. */
  predicate Truthy(v: Value) {
    match v
    case Str(s) => s != ""
    case Num(n) => n != 0
    case Bool(b) => b
    case Undefined => false
  }

  /** `attributes.hostname || attributes.ip_address`. */
  function HostOrIP(attributes: Attributes): (v: Value)
    ensures "hostname" in attributes && Truthy(attributes["hostname"]) ==> v == attributes["hostname"]
    ensures !("hostname" in attributes && Truthy(attributes["hostname"])) ==>
              v == (if "ip_address" in attributes then attributes["ip_address"] else Undefined)
  {
    if "hostname" in attributes && Truthy(attributes["hostname"]) then attributes["hostname"]
    else if "ip_address" in attributes then attributes["ip_address"]
    else Undefined
  }

  function Entry(m: Option<StringMap>, key: string): string {
    if m.Some? && key in m.value then m.value[key] else ""
  }

  /** `path` is `prefix` followed by one more segment (no further dot). */
  predicate Keyed(path: string, prefix: string) {
    StartsWith(path, prefix) && '.' !in path[|prefix|..]
  }

  /**
   * The text a placeholder path resolves to, walking the dot-separated path
   * through the finding's attributes, the parent's metadata or `$`.
   */
  function Lookup(path: string, f: Finding, p: ParentScan): string {
    if path == "$.hostOrIP" then Stringify(HostOrIP(f.attributes))
    else if path == "metadata.name" then p.name
    else if Keyed(path, "attributes.") then
      var key := path[|"attributes."|..];
      if key in f.attributes then Stringify(f.attributes[key]) else ""
    else if Keyed(path, "metadata.labels.") then Entry(p.labels, path[|"metadata.labels."|..])
    else if Keyed(path, "metadata.annotations.") then Entry(p.annotations, path[|"metadata.annotations."|..])
    else ""
  }

  /**
   * `{{$.hostOrIP}}` gives the hostname when it is a non-empty string; with no
   * hostname (absent, undefined or empty) it gives the IP address, and with
   * neither it gives "".
   */
  lemma LookupHostOrIP(f: Finding, p: ParentScan)
    ensures "hostname" in f.attributes && f.attributes["hostname"].Str? && f.attributes["hostname"].s != "" ==>
              Lookup("$.hostOrIP", f, p) == f.attributes["hostname"].s
    ensures ("hostname" !in f.attributes || f.attributes["hostname"] == Undefined || f.attributes["hostname"] == Str(""))
            && "ip_address" in f.attributes && f.attributes["ip_address"].Str? ==>
              Lookup("$.hostOrIP", f, p) == f.attributes["ip_address"].s
    ensures ("hostname" !in f.attributes || f.attributes["hostname"] == Undefined) && "ip_address" !in f.attributes ==>
              Lookup("$.hostOrIP", f, p) == ""
  {
  }

  /** `{{attributes.<key>}}` gives the attribute's text, or "" when the finding lacks it. */
  lemma LookupAttribute(key: string, f: Finding, p: ParentScan)
    requires '.' !in key
    ensures Lookup("attributes." + key, f, p) == if key in f.attributes then Stringify(f.attributes[key]) else ""
  {
    var path := "attributes." + key;
    assert path[..|"attributes."|] == "attributes.";
    assert path[|"attributes."|..] == key;
    assert path != "$.hostOrIP" && path != "metadata.name" by { assert path[0] == 'a'; }
  }

  /** `{{metadata.labels.<key>}}` and `{{metadata.annotations.<key>}}` give the parent's entry or "". */
  lemma LookupMetadataEntry(key: string, f: Finding, p: ParentScan)
    requires '.' !in key
    ensures Lookup("metadata.labels." + key, f, p) == Entry(p.labels, key)
    ensures Lookup("metadata.annotations." + key, f, p) == Entry(p.annotations, key)
  {
    var l := "metadata.labels." + key;
    assert l[..|"metadata.labels."|] == "metadata.labels.";
    assert l[|"metadata.labels."|..] == key;
    assert !StartsWith(l, "attributes.") by { assert l[0] != "attributes."[0]; }
    var a := "metadata.annotations." + key;
    assert a[..|"metadata.annotations."|] == "metadata.annotations.";
    assert a[|"metadata.annotations."|..] == key;
    assert !StartsWith(a, "attributes.") by { assert a[0] != "attributes."[0]; }
    assert !StartsWith(a, "metadata.labels.") by { assert a[9] != "metadata.labels."[9]; }
  }

  /** A `metadata` field other than name, labels and annotations resolves to "". */
  lemma UnknownMetadataIsEmpty(field: string, f: Finding, p: ParentScan)
    requires '.' !in field && field != "name" && field != "labels" && field != "annotations"
    ensures Lookup("metadata." + field, f, p) == ""
  {
    var path := "metadata." + field;
    assert path[..9] == "metadata.";
    assert path[9..] == field;
    assert path != "$.hostOrIP" by { assert path[0] != "$.hostOrIP"[0]; }
    assert path != "metadata.name";
    assert !StartsWith(path, "attributes.") by { assert path[0] != "attributes."[0]; }
    assert |field| >= 7 ==> path[15] == field[6] && field[6] in field;
    assert |field| >= 12 ==> path[20] == field[11] && field[11] in field;
    assert !StartsWith(path, "metadata.labels.") by {
      assert |path| >= 16 ==> path[..16][15] == path[15];
      assert "metadata.labels."[15] == '.';
    }
    assert !StartsWith(path, "metadata.annotations.") by {
      assert |path| >= 21 ==> path[..21][20] == path[20];
      assert "metadata.annotations."[20] == '.';
    }
  }

  predicate IsClose(t: string, k: int) {
    0 <= k && k + 1 < |t| && t[k] == '}' && t[k + 1] == '}'
  }

  predicate IsOpen(t: string, k: int) {
    0 <= k && k + 1 < |t| && t[k] == '{' && t[k + 1] == '{'
  }

  /** The first `}}` at or after position `i`. */
  function FindClose(t: string, i: nat): (r: Option<nat>)
    requires i <= |t|
    ensures r.Some? ==> i <= r.value && IsClose(t, r.value)
    ensures r.Some? ==> forall k :: i <= k < r.value ==> !IsClose(t, k)
    ensures r.None? ==> forall k :: i <= k < |t| ==> !IsClose(t, k)
    decreases |t| - i
  {
    if i + 1 >= |t| then None
    else if IsClose(t, i) then Some(i)
    else FindClose(t, i + 1)
  }

  /** Renders a template; an opening `{{` with no closing `}}` is kept as text. */
  function Render(t: string, f: Finding, p: ParentScan): string
    decreases |t|
  {
    if |t| == 0 then ""
    else if IsOpen(t, 0) then
      match FindClose(t, 2)
      case Some(j) => Lookup(t[2..j], f, p) + Render(t[j + 2..], f, p)
      case None => t
    else [t[0]] + Render(t[1..], f, p)
  }

  /** A template without any `{{` is its own rendering. */
  lemma {:induction false} RenderPlain(t: string, f: Finding, p: ParentScan)
    requires forall k :: 0 <= k < |t| ==> !IsOpen(t, k)
    ensures Render(t, f, p) == t
    decreases |t|
  {
    if |t| > 0 {
      assert !IsOpen(t, 0);
      assert forall k :: 0 <= k < |t[1..]| ==> !IsOpen(t[1..], k) by {
        forall k | 0 <= k < |t[1..]| ensures !IsOpen(t[1..], k) {
          assert !IsOpen(t, k + 1);
        }
      }
      RenderPlain(t[1..], f, p);
      assert t == [t[0]] + t[1..];
    }
  }

  /** Text without `{` in front of a template is copied unchanged. */
  lemma {:induction false} RenderLiteralPrefix(a: string, b: string, f: Finding, p: ParentScan)
    requires '{' !in a
    ensures Render(a + b, f, p) == a + Render(b, f, p)
    decreases |a|
  {
    if |a| > 0 {
      assert a[0] in a;
      assert (a + b)[0] == a[0];
      assert !IsOpen(a + b, 0);
      assert (a + b)[1..] == a[1..] + b;
      assert Render(a + b, f, p) == [a[0]] + Render(a[1..] + b, f, p);
      RenderLiteralPrefix(a[1..], b, f, p);
      assert a == [a[0]] + a[1..];
    } else {
      assert a + b == b;
    }
  }

  /** The placeholder `{{path}}`. */
  function Tag(path: string): string {
    "{{" + path + "}}"
  }

  /** A placeholder `{{path}}` in front of a template is replaced by what its path resolves to. */
  lemma RenderPlaceholder(path: string, b: string, f: Finding, p: ParentScan)
    requires '}' !in path
    ensures Render(Tag(path) + b, f, p) == Lookup(path, f, p) + Render(b, f, p)
  {
    var t := Tag(path) + b;
    var j := 2 + |path|;
    assert IsOpen(t, 0);
    assert IsClose(t, j);
    forall k | 2 <= k < j ensures !IsClose(t, k) {
      assert t[k] == path[k - 2];
    }
    assert FindClose(t, 2) == Some(j) by {
      FindCloseFirst(t, 2, j);
    }
    assert t[2..j] == path;
    assert t[j + 2..] == b;
  }

  /** `FindClose` finds the first `}}`. */
  lemma {:induction false} FindCloseFirst(t: string, i: nat, j: nat)
    requires i <= j && IsClose(t, j)
    requires forall k :: i <= k < j ==> !IsClose(t, k)
    ensures FindClose(t, i) == Some(j)
    decreases j - i
  {
    if i < j {
      FindCloseFirst(t, i + 1, j);
    }
  }

  /** Each parameter is rendered on its own; their number and order are kept. */
  function RenderAll(templates: seq<string>, f: Finding, p: ParentScan): (r: seq<string>)
    ensures |r| == |templates|
    ensures forall i :: 0 <= i < |templates| ==> r[i] == Render(templates[i], f, p)
  {
    seq(|templates|, i requires 0 <= i < |templates| => Render(templates[i], f, p))
  }

  /** Parameters are rendered independently: rendering a concatenation concatenates the renderings. */
  lemma RenderAllAppend(a: seq<string>, b: seq<string>, f: Finding, p: ParentScan)
    ensures RenderAll(a + b, f, p) == RenderAll(a, f, p) + RenderAll(b, f, p)
  {
    var l := RenderAll(a + b, f, p);
    var r := RenderAll(a, f, p) + RenderAll(b, f, p);
    assert |l| == |r|;
    forall i | 0 <= i < |l| ensures l[i] == r[i] {
      if i < |a| {
        assert (a + b)[i] == a[i];
      } else {
        assert (a + b)[i] == b[i - |a|];
      }
    }
  }

  /** The values of a label or annotation map are rendered; its keys are not. */
  function RenderValues(m: StringMap, f: Finding, p: ParentScan): (r: StringMap)
    ensures r.Keys == m.Keys
    ensures forall k :: k in m ==> r[k] == Render(m[k], f, p)
  {
    map k | k in m :: Render(m[k], f, p)
  }

  /** Entries are rendered independently: setting one entry and then rendering renders that value alone. */
  lemma RenderValuesUpdate(m: StringMap, k: string, v: string, f: Finding, p: ParentScan)
    ensures RenderValues(m[k := v], f, p) == RenderValues(m, f, p)[k := Render(v, f, p)]
  {
    var l := RenderValues(m[k := v], f, p);
    var r := RenderValues(m, f, p)[k := Render(v, f, p)];
    assert l.Keys == r.Keys;
    forall key | key in l ensures l[key] == r[key] {
      if key != k {
        assert m[k := v][key] == m[key];
      }
    }
  }
}

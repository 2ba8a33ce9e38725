/** `read_resource`: two exact URIs select a whole table; any other URI under the frameworks
    prefix selects one framework by its last path segment; everything else raises. The
    selected subtree is returned as a JSON value; its serialisation with `json.dumps` is not
    modelled. */
module Resources {
  import opened Wrappers
  import opened Text
  import opened Knowledge
  import opened Registry

  datatype Json =
    | JString(s: string)
    | JArray(items: seq<Json>)
    | JObject(members: seq<(string, Json)>)

  function StringsJson(xs: seq<string>): (j: Json)
    ensures j.JArray? && |j.items| == |xs|
    ensures forall i :: 0 <= i < |xs| ==> j.items[i] == JString(xs[i])
  {
    JArray(seq(|xs|, i requires 0 <= i < |xs| => JString(xs[i])))
  }

  /** One framework record as the JSON object it is stored as. */
  function FrameworkJson(f: Framework): Json
  {
    JObject([("name", JString(f.name)),
             ("description", JString(f.description)),
             ("key_principles", StringsJson(f.keyPrinciples))])
  }

  function FrameworksJson(): (j: Json)
    ensures j.JObject? && |j.members| == |ETHICAL_FRAMEWORKS|
  {
    JObject(seq(|ETHICAL_FRAMEWORKS|, i requires 0 <= i < |ETHICAL_FRAMEWORKS| =>
      (ETHICAL_FRAMEWORKS[i].0, FrameworkJson(ETHICAL_FRAMEWORKS[i].1))))
  }

  function GuidelinesJson(): (j: Json)
    ensures j.JObject? && |j.members| == |AI_ETHICS_GUIDELINES|
  {
    JObject(seq(|AI_ETHICS_GUIDELINES|, i requires 0 <= i < |AI_ETHICS_GUIDELINES| =>
      (AI_ETHICS_GUIDELINES[i].0, JString(AI_ETHICS_GUIDELINES[i].1))))
  }

  /** The position of the last '/' in `s`, or -1 when there is none. */
  function LastSlash(s: string): (i: int)
    ensures -1 <= i < |s|
    ensures i >= 0 ==> s[i] == '/'
    ensures forall j :: i < j < |s| ==> s[j] != '/'
    decreases |s|
  {
    if s == [] then -1
    else if s[|s| - 1] == '/' then |s| - 1
    else LastSlash(s[..|s| - 1])
  }

  /** `s.split("/")[-1]`: the text after the last '/', or all of `s` when it has none. */
  function LastSegment(s: string): (r: string)
    ensures '/' !in r
    ensures |r| <= |s| && r == s[|s| - |r|..]
    ensures |r| < |s| ==> s[|s| - |r| - 1] == '/'
  {
    s[LastSlash(s) + 1..]
  }

  /** `uri.startswith(prefix)`. */
  predicate StartsWith(s: string, prefix: string)
  {
    prefix <= s
  }

  /** `read_resource(uri)`: a URI is read only under one of the two exact URIs or the
      frameworks prefix, and every failure is a `ValueError`. */
  function ReadResource(uri: string): (r: Result<Json, PyError>)
    ensures r.Success? ==> uri == FRAMEWORKS_ALL_URI || uri == GUIDELINES_URI || StartsWith(uri, FRAMEWORKS_PREFIX)
    ensures r.Failure? ==> r.error.ValueError?
  {
    if uri == FRAMEWORKS_ALL_URI then Success(FrameworksJson())
    else if uri == GUIDELINES_URI then Success(GuidelinesJson())
    else if StartsWith(uri, FRAMEWORKS_PREFIX) then
      var key := LastSegment(uri);
      match Lookup(ETHICAL_FRAMEWORKS, key)
      case Some(f) => Success(FrameworkJson(f))
      case None => Failure(ValueError("Unknown framework: " + key))
    else Failure(ValueError("Unknown resource URI: " + uri))
  }

  /** The last segment of a path that ends in '/' followed by a slash-free `key` is `key`. */
  lemma LastSegmentAfterSlash(path: string, key: string)
    requires path != [] && path[|path| - 1] == '/'
    requires '/' !in key
    ensures LastSegment(path + key) == key
  {
    var s := path + key;
    var i := LastSlash(s);
    assert s[|path| - 1] == '/';
    assert forall j :: |path| <= j < |s| ==> s[j] == key[j - |path|];
    assert s[|path|..] == key;
  }

  /** The whole resolver, case by case: which URIs succeed, with what, and the message of
      each error. */
  lemma ReadResourceCases(uri: string)
    ensures uri == FRAMEWORKS_ALL_URI ==> ReadResource(uri) == Success(FrameworksJson())
    ensures uri == GUIDELINES_URI ==> ReadResource(uri) == Success(GuidelinesJson())
    ensures uri != FRAMEWORKS_ALL_URI && StartsWith(uri, FRAMEWORKS_PREFIX) ==>
      ReadResource(uri) == (match Lookup(ETHICAL_FRAMEWORKS, LastSegment(uri))
                            case Some(f) => Success(FrameworkJson(f))
                            case None => Failure(ValueError("Unknown framework: " + LastSegment(uri))))
    ensures uri != GUIDELINES_URI && !StartsWith(uri, FRAMEWORKS_PREFIX) ==>
      ReadResource(uri) == Failure(ValueError("Unknown resource URI: " + uri))
  {
    if uri == GUIDELINES_URI {
      assert !StartsWith(uri, FRAMEWORKS_PREFIX) by {
        assert uri[11] != FRAMEWORKS_PREFIX[11];
      }
    }
  }

  /** `list_resources` holds six entries, and every framework of the knowledge base has one,
      under its key's URI and its display name. */
  lemma ResourcesCoverEveryFramework()
    ensures |ListResources()| == 6
    ensures ListResources()[0].uri == FRAMEWORKS_ALL_URI
    ensures ListResources()[1].uri == GUIDELINES_URI
    ensures forall i :: 0 <= i < |ETHICAL_FRAMEWORKS| ==>
      ListResources()[i + 2].uri == FRAMEWORKS_PREFIX + ETHICAL_FRAMEWORKS[i].0
      && ListResources()[i + 2].name == ETHICAL_FRAMEWORKS[i].1.name
  {
  }

  lemma ListedResourceResolves(k: nat)
    requires k < |ListResources()|
    ensures ReadResource(ListResources()[k].uri).Success?
  {
    ResourcesCoverEveryFramework();
    ExactUrisResolve();
    var uri := ListResources()[k].uri;
    if k == 0 {
      assert uri == FRAMEWORKS_ALL_URI;
    } else if k == 1 {
      assert uri == GUIDELINES_URI;
    } else {
      FrameworkUriResolves(k - 2);
      assert uri == FRAMEWORKS_PREFIX + ETHICAL_FRAMEWORKS[k - 2].0;
    }
  }

  lemma ExactUrisResolve()
    ensures ReadResource(FRAMEWORKS_ALL_URI) == Success(FrameworksJson())
    ensures ReadResource(GUIDELINES_URI) == Success(GuidelinesJson())
  {
    assert GUIDELINES_URI != FRAMEWORKS_ALL_URI by {
      assert GUIDELINES_URI[11] != FRAMEWORKS_ALL_URI[11];
    }
  }

  lemma FrameworkUriResolves(i: nat)
    requires i < |ETHICAL_FRAMEWORKS|
    ensures ReadResource(FRAMEWORKS_PREFIX + ETHICAL_FRAMEWORKS[i].0) == Success(FrameworkJson(ETHICAL_FRAMEWORKS[i].1))
  {
    ExtraSegmentsIgnored([], i);
    assert FRAMEWORKS_PREFIX + [] == FRAMEWORKS_PREFIX;
  }

  /** Every URI that `list_resources` advertises can be read without error. */
  lemma ListedResourcesResolve()
    ensures forall k :: 0 <= k < |ListResources()| ==> ReadResource(ListResources()[k].uri).Success?
  {
    forall k | 0 <= k < |ListResources()| {
      ListedResourceResolves(k);
    }
  }

  /** Reading a single framework yields an object whose `name` is the framework's display
      name and whose `key_principles` holds at least three strings. */
  lemma SingleFrameworkShape(uri: string)
    requires uri != FRAMEWORKS_ALL_URI && uri != GUIDELINES_URI
    requires ReadResource(uri).Success?
    ensures StartsWith(uri, FRAMEWORKS_PREFIX)
    ensures Lookup(ETHICAL_FRAMEWORKS, LastSegment(uri)).Some?
    ensures var j := ReadResource(uri).value;
      j.JObject? && |j.members| == 3
      && j.members[0] == ("name", JString(Lookup(ETHICAL_FRAMEWORKS, LastSegment(uri)).value.name))
      && j.members[2].0 == "key_principles"
      && j.members[2].1.JArray? && |j.members[2].1.items| >= 3
  {
    FrameworksWellFormed();
    var f := Lookup(ETHICAL_FRAMEWORKS, LastSegment(uri)).value;
    var i :| 0 <= i < |ETHICAL_FRAMEWORKS| && ETHICAL_FRAMEWORKS[i] == (LastSegment(uri), f);
  }

  /** A URI built from the frameworks prefix, a path ending in '/', and a key other than
      "all" is neither of the two exact URIs. */
  lemma {:induction false} NotAnExactUri(middle: string, key: string)
    requires middle == [] || middle[|middle| - 1] == '/'
    requires key != "all"
    ensures StartsWith(FRAMEWORKS_PREFIX + middle + key, FRAMEWORKS_PREFIX)
    ensures FRAMEWORKS_PREFIX + middle + key != FRAMEWORKS_ALL_URI
    ensures FRAMEWORKS_PREFIX + middle + key != GUIDELINES_URI
  {
    var uri := FRAMEWORKS_PREFIX + middle + key;
    var tail := middle + key;
    assert uri == FRAMEWORKS_PREFIX + tail;
    assert uri[..|FRAMEWORKS_PREFIX|] == FRAMEWORKS_PREFIX;
    assert uri[|FRAMEWORKS_PREFIX|..] == tail;
    assert uri != FRAMEWORKS_ALL_URI by {
      assert FRAMEWORKS_ALL_URI[|FRAMEWORKS_PREFIX|..] == "all";
      if middle == [] {
        assert tail == key;
      } else {
        assert tail[|middle| - 1] == '/';
        assert '/' !in "all";
      }
    }
    assert uri != GUIDELINES_URI by {
      assert uri[11] != GUIDELINES_URI[11];
    }
  }

  /** Only the last path segment selects the framework: segments between the prefix and the
      key are ignored, so `ethicist://frameworks/extra/virtue` reads the virtue framework. */
  lemma {:induction false} ExtraSegmentsIgnored(middle: string, i: nat)
    requires i < |ETHICAL_FRAMEWORKS|
    requires middle == [] || middle[|middle| - 1] == '/'
    ensures ReadResource(FRAMEWORKS_PREFIX + middle + ETHICAL_FRAMEWORKS[i].0) == Success(FrameworkJson(ETHICAL_FRAMEWORKS[i].1))
  {
    var key := ETHICAL_FRAMEWORKS[i].0;
    var path := FRAMEWORKS_PREFIX + middle;
    assert key != "all" && '/' !in key;
    NotAnExactUri(middle, key);
    LastSegmentAfterSlash(path, key);
    KnowledgeKeysDistinct();
    LookupAt(ETHICAL_FRAMEWORKS, i);
    ReadResourceCases(path + key);
  }
}

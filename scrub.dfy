/**
 * The sensitive-data scrubber: an event's `Extra` tree and its `Tags` are
 * rewritten so that values under configured sensitive keys become "*".
 */
module Scrub {
  import opened Wrappers
  import opened Strings
  import opened PluginEvent

  /** The sentinel that replaces a sensitive scalar. */
  const Redacted: Value := Scalar(Str("*"))

  // ---------------------------------------------------------------------------
  // Extra: scrubSensitiveFromMap and scrubSensitiveFromArray
  // ---------------------------------------------------------------------------

  /**
   * The new value stored under `key` (one turn of the `switch` in
   * scrubSensitiveFromMap): slices of maps and maps are walked, other
   * slices pass through, scalars under a sensitive key become "*".
   */
  function ScrubValue(key: string, v: Value, keys: seq<string>): (r: Value)
    decreases v, 1
    ensures v.Scalar? && key in keys ==> r == Redacted
    ensures v.Scalar? && key !in keys ==> r == v
    ensures v.Map? ==> r.Map? && r.dict.entries.Keys == v.dict.entries.Keys
    ensures v.MapList? ==> r.MapList? && |r.dicts| == |v.dicts|
    ensures v.OtherList? ==> r == v
  {
    match v
    case Scalar(_) => if key in keys then Redacted else v
    case Map(d) => Map(ScrubMap(d, keys))
    case MapList(ds) => MapList(ScrubList(ds, keys))
    case OtherList(_) => v
  }

  /** scrubSensitiveFromMap: a fresh map with the same keys, each value scrubbed under its key. */
  function ScrubMap(d: Dict, keys: seq<string>): (r: Dict)
    decreases d, 0
    ensures r.entries.Keys == d.entries.Keys
  {
    Dict(map k | k in d.entries :: ScrubValue(k, d.entries[k], keys))
  }

  /** scrubSensitiveFromArray: every map of the slice scrubbed, in order. */
  function ScrubList(ds: seq<Dict>, keys: seq<string>): (r: seq<Dict>)
    decreases MapList(ds), 0
    ensures |r| == |ds|
    ensures forall i :: 0 <= i < |ds| ==> r[i].entries.Keys == ds[i].entries.Keys
  {
    seq(|ds|, i requires 0 <= i < |ds| => ScrubMap(ds[i], keys))
  }

  // ---------------------------------------------------------------------------
  // Tags: scrubSensitiveFromTags
  // ---------------------------------------------------------------------------

  /** Every tag holds a colon: the source indexes `values[1]` unguarded and panics otherwise. */
  predicate WellFormedTags(tags: seq<string>)
  {
    forall i :: 0 <= i < |tags| ==> ':' in tags[i]
  }

  /**
   * One tag rewritten: `key:value...` is split on ":"; the key is kept, the
   * value becomes "*" if the key is sensitive and is otherwise the segment
   * between the first and the second colon.
   */
  function ScrubTag(tag: string, keys: seq<string>): (r: string)
    requires ':' in tag
    ensures var i := IndexOf(tag, ':');
            r == tag[..i] + ":" + (if tag[..i] in keys then "*" else Before(tag[i + 1..], ':'))
  {
    SplitAtFirst(tag, ':');
    SplitHead(tag[IndexOf(tag, ':') + 1..], ':');
    var values := Split(tag, ':');
    var key := values[0];
    var value := if key in keys then "*" else values[1];
    key + ":" + value
  }

  /** scrubSensitiveFromTags: every tag rewritten, keeping length and order. */
  function ScrubTags(tags: seq<string>, keys: seq<string>): (r: seq<string>)
    requires WellFormedTags(tags)
    ensures |r| == |tags|
    ensures forall i :: 0 <= i < |tags| ==> r[i] == ScrubTag(tags[i], keys)
  {
    if tags == [] then [] else [ScrubTag(tags[0], keys)] + ScrubTags(tags[1..], keys)
  }

  // ---------------------------------------------------------------------------
  // The event: ScrubSensitiveEvent
  // ---------------------------------------------------------------------------

  /** The event after ScrubSensitiveEvent: only `Extra` and `Tags` are replaced. */
  function ScrubEvent(e: Event, keys: seq<string>): (r: Event)
    requires WellFormedTags(e.tags)
    ensures r.id == e.id && r.serviceId == e.serviceId && r.platform == e.platform
    ensures r.stackTrace == e.stackTrace
    ensures r.extra.entries.Keys == e.extra.entries.Keys
    ensures |r.tags| == |e.tags|
    ensures forall i :: 0 <= i < |e.tags| ==> r.tags[i] == ScrubTag(e.tags[i], keys)
  {
    e.(extra := ScrubMap(e.extra, keys), tags := ScrubTags(e.tags, keys))
  }

  /** A Go `*event.Event`: a variable holding an event, updated through the pointer. */
  class EventRef {
    var event: Event

    constructor (event: Event)
      ensures this.event == event
    {
      this.event := event;
    }
  }

  /** ScrubSensitiveEvent: overwrites `e.Extra`, then `e.Tags`, through the pointer. */
  method ScrubSensitiveEvent(e: EventRef, keys: seq<string>)
    requires WellFormedTags(e.event.tags)
    modifies e
    ensures e.event == ScrubEvent(old(e.event), keys)
  {
    e.event := e.event.(extra := ScrubMap(e.event.extra, keys));
    e.event := e.event.(tags := ScrubTags(e.event.tags, keys));
  }

  // ---------------------------------------------------------------------------
  // Navigation: what the scrubber does at every depth
  // ---------------------------------------------------------------------------

  /** One step into a walked value: a key of a map, or an index of a slice of maps. */
  datatype Step = Key(name: string) | Index(i: nat)

  /** The value reached from `v` along `path`, through maps and slices of maps only. */
  function At(v: Value, path: seq<Step>): Option<Value>
    decreases |path|
  {
    if path == [] then Some(v)
    else match path[0]
      case Key(k) =>
        if v.Map? && k in v.dict.entries then At(v.dict.entries[k], path[1..]) else None
      case Index(i) =>
        if v.MapList? && i < |v.dicts| then At(Map(v.dicts[i]), path[1..]) else None
  }

  /** The map key under which the value at the end of `path` sits (`key` when the path names none). */
  function EnclosingKey(key: string, path: seq<Step>): string
    decreases |path|
  {
    if path == [] then key
    else EnclosingKey(if path[0].Key? then path[0].name else key, path[1..])
  }

  lemma {:induction false} EnclosingKeyLast(key: string, path: seq<Step>, k: string)
    ensures EnclosingKey(key, path + [Key(k)]) == k
    decreases |path|
  {
    if path != [] {
      assert (path + [Key(k)])[1..] == path[1..] + [Key(k)];
      EnclosingKeyLast(if path[0].Key? then path[0].name else key, path[1..], k);
    }
  }

  /**
   * Scrubbing commutes with navigation: wherever a path leads in the input,
   * it leads in the output too, to the input's value scrubbed under its own
   * enclosing key; where it leads nowhere in the input, it leads nowhere.
   */
  lemma {:induction false} ScrubAt(key: string, v: Value, keys: seq<string>, path: seq<Step>)
    ensures At(ScrubValue(key, v, keys), path)
         == if At(v, path).Some? then Some(ScrubValue(EnclosingKey(key, path), At(v, path).value, keys)) else None
    decreases |path|
  {
    if path != [] {
      match path[0]
      case Key(k) =>
        if v.Map? && k in v.dict.entries {
          ScrubAt(k, v.dict.entries[k], keys, path[1..]);
        }
      case Index(i) =>
        if v.MapList? && i < |v.dicts| {
          assert ScrubValue(key, v, keys).dicts[i] == ScrubMap(v.dicts[i], keys);
          ScrubAt(key, Map(v.dicts[i]), keys, path[1..]);
        }
    }
  }

  /**
   * At every depth, a scalar under a sensitive key becomes "*" and a scalar
   * under any other key is unchanged.
   */
  lemma RedactsAtEveryDepth(extra: Dict, keys: seq<string>, path: seq<Step>, k: string, x: Prim)
    requires At(Map(extra), path + [Key(k)]) == Some(Scalar(x))
    ensures At(Map(ScrubMap(extra, keys)), path + [Key(k)])
         == Some(if k in keys then Redacted else Scalar(x))
  {
    ScrubAt("", Map(extra), keys, path + [Key(k)]);
    EnclosingKeyLast("", path, k);
  }

  /**
   * The output has the input's structure: every path reaches a value of the
   * same shape in both, maps with the same key sets, slices of maps with the
   * same lengths, and any other slice untouched even under a sensitive key.
   */
  lemma KeepsStructure(extra: Dict, keys: seq<string>, path: seq<Step>)
    ensures At(Map(ScrubMap(extra, keys)), path).Some? <==> At(Map(extra), path).Some?
    ensures At(Map(extra), path).Some? ==>
      var w, w' := At(Map(extra), path).value, At(Map(ScrubMap(extra, keys)), path).value;
      && (w.Scalar? <==> w'.Scalar?)
      && (w.Map? <==> w'.Map?)
      && (w.Map? ==> w'.dict.entries.Keys == w.dict.entries.Keys)
      && (w.MapList? <==> w'.MapList?)
      && (w.MapList? ==> |w'.dicts| == |w.dicts|)
      && (w.OtherList? ==> w' == w)
  {
    ScrubAt("", Map(extra), keys, path);
  }

  /**
   * A nested map is walked and never replaced, even under a sensitive key:
   * only its own sensitive scalars change.
   */
  lemma NestedMapIsWalked(d: Dict, keys: seq<string>, k: string)
    requires k in d.entries && d.entries[k].Map?
    ensures ScrubMap(d, keys).entries[k] == Map(ScrubMap(d.entries[k].dict, keys))
    ensures ScrubMap(d, keys).entries[k] != Redacted
  {
  }

  // ---------------------------------------------------------------------------
  // Idempotence
  // ---------------------------------------------------------------------------

  lemma {:induction false} ScrubValueIdempotent(key: string, v: Value, keys: seq<string>)
    ensures ScrubValue(key, ScrubValue(key, v, keys), keys) == ScrubValue(key, v, keys)
    decreases v, 1
  {
    match v
    case Scalar(_) =>
    case Map(d) => ScrubMapIdempotent(d, keys);
    case MapList(ds) => ScrubListIdempotent(ds, keys);
    case OtherList(_) =>
  }

  lemma {:induction false} ScrubMapIdempotent(d: Dict, keys: seq<string>)
    ensures ScrubMap(ScrubMap(d, keys), keys) == ScrubMap(d, keys)
    decreases d, 0
  {
    var once := ScrubMap(d, keys);
    forall k | k in d.entries
      ensures ScrubMap(once, keys).entries[k] == once.entries[k]
    {
      ScrubValueIdempotent(k, d.entries[k], keys);
    }
    assert ScrubMap(once, keys).entries == once.entries;
  }

  lemma {:induction false} ScrubListIdempotent(ds: seq<Dict>, keys: seq<string>)
    ensures ScrubList(ScrubList(ds, keys), keys) == ScrubList(ds, keys)
    decreases MapList(ds), 0
  {
    forall i | 0 <= i < |ds|
      ensures ScrubList(ScrubList(ds, keys), keys)[i] == ScrubList(ds, keys)[i]
    {
      ScrubMapIdempotent(ds[i], keys);
    }
  }

  /** Splitting `k:v` with colon-free `k` and `v` recovers `k` and `v`. */
  lemma TagParts(k: string, v: string)
    requires ':' !in k && ':' !in v
    ensures ':' in k + ":" + v
    ensures IndexOf(k + ":" + v, ':') == |k|
    ensures (k + ":" + v)[..|k|] == k && (k + ":" + v)[|k| + 1..] == v
  {
    var t := k + ":" + v;
    assert t[|k|] == ':';
    assert t[..|k|] == k;
    assert t[|k| + 1..] == v;
  }

  /** A rewritten tag has exactly one colon, between its key and its value. */
  lemma ScrubTagWellFormed(tag: string, keys: seq<string>)
    requires ':' in tag
    ensures Count(ScrubTag(tag, keys), ':') == 1
  {
    var i := IndexOf(tag, ':');
    var v := if tag[..i] in keys then "*" else Before(tag[i + 1..], ':');
    CountConcat(tag[..i] + ":", v, ':');
    CountConcat(tag[..i], ":", ':');
    CountZero(tag[..i], ':');
    CountZero(v, ':');
  }

  lemma ScrubTagIdempotent(tag: string, keys: seq<string>)
    requires ':' in tag
    ensures ':' in ScrubTag(tag, keys)
    ensures ScrubTag(ScrubTag(tag, keys), keys) == ScrubTag(tag, keys)
  {
    var i := IndexOf(tag, ':');
    var k := tag[..i];
    var v := if k in keys then "*" else Before(tag[i + 1..], ':');
    TagParts(k, v);
    assert Before(v, ':') == v;
  }

  lemma {:induction false} ScrubTagsIdempotent(tags: seq<string>, keys: seq<string>)
    requires WellFormedTags(tags)
    ensures WellFormedTags(ScrubTags(tags, keys))
    ensures ScrubTags(ScrubTags(tags, keys), keys) == ScrubTags(tags, keys)
  {
    var once := ScrubTags(tags, keys);
    forall i | 0 <= i < |tags|
      ensures ':' in once[i] && ScrubTag(once[i], keys) == once[i]
    {
      ScrubTagIdempotent(tags[i], keys);
    }
  }

  /** Scrubbing an already scrubbed event with the same keys changes nothing. */
  lemma ScrubEventIdempotent(e: Event, keys: seq<string>)
    requires WellFormedTags(e.tags)
    ensures WellFormedTags(ScrubEvent(e, keys).tags)
    ensures ScrubEvent(ScrubEvent(e, keys), keys) == ScrubEvent(e, keys)
  {
    ScrubMapIdempotent(e.extra, keys);
    ScrubTagsIdempotent(e.tags, keys);
  }

  // ---------------------------------------------------------------------------
  // The quirks of the tag rewrite
  // ---------------------------------------------------------------------------

  /** A tag with exactly one colon and a non-sensitive key comes out unchanged. */
  lemma TagWithOneColonKept(tag: string, keys: seq<string>)
    requires Count(tag, ':') == 1
    requires Before(tag, ':') !in keys
    ensures ':' in tag
    ensures ScrubTag(tag, keys) == tag
  {
    CountZero(tag, ':');
    ColonsAround(tag);
    var i := IndexOf(tag, ':');
    CountZero(tag[i + 1..], ':');
    assert tag == tag[..i] + ":" + tag[i + 1..];
  }

  /**
   * A tag with a second colon under a non-sensitive key loses everything
   * from the second colon on.
   */
  lemma TagTailDropped(tag: string, keys: seq<string>)
    requires Count(tag, ':') >= 2
    requires Before(tag, ':') !in keys
    ensures ':' in tag && ':' in tag[IndexOf(tag, ':') + 1..]
    ensures var j := IndexOf(tag, ':') + 1 + IndexOf(tag[IndexOf(tag, ':') + 1..], ':');
            tag[j] == ':' && ScrubTag(tag, keys) == tag[..j]
  {
    assert ':' in tag by {
      CountZero(tag, ':');
    }
    var i := IndexOf(tag, ':');
    var rest := tag[i + 1..];
    assert ':' in rest by {
      ColonsAround(tag);
      CountZero(rest, ':');
    }
    var i2 := IndexOf(rest, ':');
    assert ScrubTag(tag, keys) == tag[..i] + ":" + rest[..i2];
    SliceAround(tag, i, i2);
  }

  /** Cutting `s` before `i + 1 + n` keeps the part before `i`, `s[i]`, and `n` more. */
  lemma SliceAround(s: string, i: nat, n: nat)
    requires i + 1 + n <= |s|
    ensures s[..i + 1 + n] == s[..i] + [s[i]] + s[i + 1..][..n]
  {
  }

  /** The colons of a tag: none before the first, the rest after it. */
  lemma ColonsAround(tag: string)
    requires ':' in tag
    ensures Count(tag, ':') == 1 + Count(tag[IndexOf(tag, ':') + 1..], ':')
  {
    var i := IndexOf(tag, ':');
    assert tag == tag[..i] + [':'] + tag[i + 1..];
    CountConcat(tag[..i] + [':'], tag[i + 1..], ':');
    CountConcat(tag[..i], [':'], ':');
    CountZero(tag[..i], ':');
  }

  // ---------------------------------------------------------------------------
  // The two scenarios of pkg/scrub/scrub_test.go
  // ---------------------------------------------------------------------------

  function Text(s: string): Value { Scalar(Str(s)) }

  /** The stack frame both scenarios carry; its "secret" is not scrubbed. */
  function Frame(): Dict
  {
    Dict(map["error" := Text("fatal"), "secret" := Text("public")])
  }

  /** TestScrubSensitiveEventSimple: top-level keys and two tags are redacted, the stack trace is not. */
  lemma SimpleEventScrubbed(e: Event, keys: seq<string>)
    requires e == Event("foo", "bar", "python",
                        Dict(map["message" := Text("public info"), "password" := Text("foo"), "secret" := Text("bar")]),
                        [Frame()], ["secret:biz", "password:qux", "app:foo"])
    requires keys == ["password", "secret"]
    ensures WellFormedTags(e.tags)
    ensures ScrubEvent(e, keys)
         == Event("foo", "bar", "python",
                  Dict(map["message" := Text("public info"), "password" := Redacted, "secret" := Redacted]),
                  [Frame()], ["secret:*", "password:*", "app:foo"])
  {
    SimpleExtraScrubbed(e.extra, keys);
    SimpleTagsScrubbed(e.tags, keys);
    EventScrubbedBy(e, keys,
                    Dict(map["message" := Text("public info"), "password" := Redacted, "secret" := Redacted]),
                    ["secret:*", "password:*", "app:foo"]);
  }

  lemma SimpleExtraScrubbed(extra: Dict, keys: seq<string>)
    requires extra == Dict(map["message" := Text("public info"), "password" := Text("foo"), "secret" := Text("bar")])
    requires keys == ["password", "secret"]
    ensures ScrubMap(extra, keys)
         == Dict(map["message" := Text("public info"), "password" := Redacted, "secret" := Redacted])
  {
    assert ScrubMap(extra, keys).entries
        == map["message" := Text("public info"), "password" := Redacted, "secret" := Redacted];
  }

  /** An event whose extra and tags are known to scrub to `extra` and `tags`. */
  lemma EventScrubbedBy(e: Event, keys: seq<string>, extra: Dict, tags: seq<string>)
    requires WellFormedTags(e.tags)
    requires ScrubMap(e.extra, keys) == extra && ScrubTags(e.tags, keys) == tags
    ensures ScrubEvent(e, keys) == e.(extra := extra, tags := tags)
  {
  }

  lemma SimpleTagsScrubbed(tags: seq<string>, keys: seq<string>)
    requires tags == ["secret:biz", "password:qux", "app:foo"]
    requires keys == ["password", "secret"]
    ensures WellFormedTags(tags)
    ensures ScrubTags(tags, keys) == ["secret:*", "password:*", "app:foo"]
  {
    SimpleTagsWellFormed(tags);
    SecretTag(tags[0], keys);
    PasswordTag(tags[1], keys);
    AppTag(tags[2], keys);
    ThreeTags(tags, keys, "secret:*", "password:*", "app:foo");
  }

  lemma SimpleTagsWellFormed(tags: seq<string>)
    requires tags == ["secret:biz", "password:qux", "app:foo"]
    ensures WellFormedTags(tags)
  {
    assert ':' in tags[0] && ':' in tags[1] && ':' in tags[2];
  }

  lemma SecretTag(tag: string, keys: seq<string>)
    requires tag == "secret:biz" && "secret" in keys
    ensures ':' in tag && ScrubTag(tag, keys) == "secret:*"
  {
    assert tag == "secret" + ":" + "biz";
    TagScrubbed("secret", "biz", keys);
  }

  lemma PasswordTag(tag: string, keys: seq<string>)
    requires tag == "password:qux" && "password" in keys
    ensures ':' in tag && ScrubTag(tag, keys) == "password:*"
  {
    assert tag == "password" + ":" + "qux";
    TagScrubbed("password", "qux", keys);
  }

  lemma AppTag(tag: string, keys: seq<string>)
    requires tag == "app:foo" && "app" !in keys
    ensures ':' in tag && ScrubTag(tag, keys) == "app:foo"
  {
    assert tag == "app" + ":" + "foo";
    TagScrubbed("app", "foo", keys);
  }

  /** TestScrubSensitiveEventComplex: nested maps and slices of maps are walked at every depth. */
  lemma ComplexEventScrubbed(e: Event, keys: seq<string>)
    requires e == Event("foo", "bar", "python",
                        Dict(map["message" := Text("public info"),
                                 "user" := Map(Dict(map["credentials" := Map(Dict(map["pwd" := Text("foo")]))])),
                                 "keys" := MapList([Dict(map["secret" := Text("bar")])])]),
                        [Frame()], ["secret:biz", "pwd:qux", "app:foo"])
    requires keys == ["pwd", "secret"]
    ensures WellFormedTags(e.tags)
    ensures ScrubEvent(e, keys)
         == Event("foo", "bar", "python",
                  Dict(map["message" := Text("public info"),
                           "user" := Map(Dict(map["credentials" := Map(Dict(map["pwd" := Redacted]))])),
                           "keys" := MapList([Dict(map["secret" := Redacted])])]),
                  [Frame()], ["secret:*", "pwd:*", "app:foo"])
  {
    ComplexExtraScrubbed(e.extra, keys);
    ComplexTagsScrubbed(e.tags, keys);
    EventScrubbedBy(e, keys,
                    Dict(map["message" := Text("public info"),
                             "user" := Map(Dict(map["credentials" := Map(Dict(map["pwd" := Redacted]))])),
                             "keys" := MapList([Dict(map["secret" := Redacted])])]),
                    ["secret:*", "pwd:*", "app:foo"]);
  }

  lemma ComplexExtraScrubbed(extra: Dict, keys: seq<string>)
    requires extra == Dict(map["message" := Text("public info"),
                               "user" := Map(Dict(map["credentials" := Map(Dict(map["pwd" := Text("foo")]))])),
                               "keys" := MapList([Dict(map["secret" := Text("bar")])])])
    requires keys == ["pwd", "secret"]
    ensures ScrubMap(extra, keys)
         == Dict(map["message" := Text("public info"),
                     "user" := Map(Dict(map["credentials" := Map(Dict(map["pwd" := Redacted]))])),
                     "keys" := MapList([Dict(map["secret" := Redacted])])])
  {
    var pwd := Dict(map["pwd" := Text("foo")]);
    ScrubSingleton("pwd", Text("foo"), keys);
    ScrubSingleton("credentials", Map(pwd), keys);
    var secret := Dict(map["secret" := Text("bar")]);
    ScrubSingleton("secret", Text("bar"), keys);
    assert ScrubList([secret], keys) == [Dict(map["secret" := Redacted])];
    ScrubThree("message", Text("public info"), "user", Map(Dict(map["credentials" := Map(pwd)])),
               "keys", MapList([secret]), keys);
  }

  /** A one-entry map scrubbed. */
  lemma ScrubSingleton(k: string, v: Value, keys: seq<string>)
    ensures ScrubMap(Dict(map[k := v]), keys) == Dict(map[k := ScrubValue(k, v, keys)])
  {
    assert ScrubMap(Dict(map[k := v]), keys).entries == map[k := ScrubValue(k, v, keys)];
  }

  /** A three-entry map scrubbed. */
  lemma ScrubThree(a: string, x: Value, b: string, y: Value, c: string, z: Value, keys: seq<string>)
    requires a != b && b != c && a != c
    ensures ScrubMap(Dict(map[a := x, b := y, c := z]), keys)
         == Dict(map[a := ScrubValue(a, x, keys), b := ScrubValue(b, y, keys), c := ScrubValue(c, z, keys)])
  {
    assert ScrubMap(Dict(map[a := x, b := y, c := z]), keys).entries
        == map[a := ScrubValue(a, x, keys), b := ScrubValue(b, y, keys), c := ScrubValue(c, z, keys)];
  }

  lemma ComplexTagsScrubbed(tags: seq<string>, keys: seq<string>)
    requires tags == ["secret:biz", "pwd:qux", "app:foo"]
    requires keys == ["pwd", "secret"]
    ensures WellFormedTags(tags)
    ensures ScrubTags(tags, keys) == ["secret:*", "pwd:*", "app:foo"]
  {
    ComplexTagsWellFormed(tags);
    SecretTag(tags[0], keys);
    PwdTag(tags[1], keys);
    AppTag(tags[2], keys);
    ThreeTags(tags, keys, "secret:*", "pwd:*", "app:foo");
  }

  lemma ComplexTagsWellFormed(tags: seq<string>)
    requires tags == ["secret:biz", "pwd:qux", "app:foo"]
    ensures WellFormedTags(tags)
  {
    assert ':' in tags[0] && ':' in tags[1] && ':' in tags[2];
  }

  lemma PwdTag(tag: string, keys: seq<string>)
    requires tag == "pwd:qux" && "pwd" in keys
    ensures ':' in tag && ScrubTag(tag, keys) == "pwd:*"
  {
    assert tag == "pwd" + ":" + "qux";
    TagScrubbed("pwd", "qux", keys);
  }

  /** A list of three tags is rewritten tag by tag. */
  lemma ThreeTags(tags: seq<string>, keys: seq<string>, a: string, b: string, c: string)
    requires WellFormedTags(tags) && |tags| == 3
    requires ScrubTag(tags[0], keys) == a && ScrubTag(tags[1], keys) == b && ScrubTag(tags[2], keys) == c
    ensures ScrubTags(tags, keys) == [a, b, c]
  {
  }

  /** The rewrite of a tag `k:v` with colon-free `k` and `v`. */
  lemma TagScrubbed(k: string, v: string, keys: seq<string>)
    requires ':' !in k && ':' !in v
    ensures ':' in k + ":" + v
    ensures ScrubTag(k + ":" + v, keys) == k + ":" + (if k in keys then "*" else v)
  {
    TagParts(k, v);
  }
}

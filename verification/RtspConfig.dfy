/** Parameter validation and topic names of the RTSP driver. */
module RtspConfig {
  import opened Wrappers

  // ---------- names ----------

  /** `isalpha`, `isalnum` and `iscntrl` of the "C" locale. */
  predicate IsAlpha(c: char) {
    'a' <= c <= 'z' || 'A' <= c <= 'Z'
  }

  predicate IsNameChar(c: char) {
    IsAlpha(c) || '0' <= c <= '9' || c == '_'
  }

  predicate IsControl(c: char) {
    c < ' ' || c == 127 as char
  }

  /** A ROS name: a letter, then letters, digits and underscores. */
  predicate IsName(s: string) {
    s != "" && IsAlpha(s[0]) && forall i :: 0 <= i < |s| ==> IsNameChar(s[i])
  }

  /** Names at the edge: letters of both cases, then digits and underscores too; no other
      character, and none of those first. */
  lemma NameExamples()
    ensures IsName("a") && IsName("Z") && IsName("camera_09") && IsName("aAzZ_")
    ensures !IsName("") && !IsName("_a") && !IsName("0a") && !IsName("a-b") && !IsName("a/b") && !IsName("a.b")
    ensures forall c: char :: IsName([c]) <==> 'a' <= c <= 'z' || 'A' <= c <= 'Z'
    ensures forall c: char :: IsName(['a', c]) <==>
              'a' <= c <= 'z' || 'A' <= c <= 'Z' || '0' <= c <= '9' || c == '_'
  {
    assert "_a"[0] == '_' && "0a"[0] == '0' && "a-b"[1] == '-' && "a/b"[1] == '/' && "a.b"[1] == '.';
    forall c: char ensures IsName(['a', c]) <==>
        'a' <= c <= 'z' || 'A' <= c <= 'Z' || '0' <= c <= '9' || c == '_' {
      assert ['a', c][1] == c;
    }
    forall c: char ensures IsName([c]) <==> 'a' <= c <= 'z' || 'A' <= c <= 'Z' {
      assert [c][0] == c;
    }
  }

  method ValidName(value: string) returns (ok: bool)
    ensures ok <==> IsName(value)
  {
    if value == "" || !IsAlpha(value[0]) {
      return false;
    }
    for i := 0 to |value|
      invariant forall k :: 0 <= k < i ==> IsNameChar(value[k])
    {
      if !IsNameChar(value[i]) {
        return false;
      }
    }
    return true;
  }

  predicate AllNames(parts: seq<string>) {
    forall i :: 0 <= i < |parts| ==> IsName(parts[i])
  }

  // ---------- paths ----------

  predicate AllSlashes(s: string) {
    forall i :: 0 <= i < |s| ==> s[i] == '/'
  }

  function Join(parts: seq<string>): string
    requires parts != []
  {
    if |parts| == 1 then parts[0] else parts[0] + "/" + Join(parts[1..])
  }

  /** `find('/', start)`. */
  function FindSlash(s: string, start: nat): (r: Option<nat>)
    requires start <= |s|
    ensures r.Some? ==> start <= r.value < |s| && s[r.value] == '/' && forall i :: start <= i < r.value ==> s[i] != '/'
    ensures r.None? ==> forall i :: start <= i < |s| ==> s[i] != '/'
    decreases |s| - start
  {
    if start == |s| then None else if s[start] == '/' then Some(start) else FindSlash(s, start + 1)
  }

  function Split(s: string): (parts: seq<string>)
    ensures parts != []
    decreases |s|
  {
    var end := FindSlash(s, 0);
    if end.None? then [s] else [s[..end.value]] + Split(s[end.value + 1..])
  }

  lemma {:induction false} JoinOfSplit(s: string)
    ensures Join(Split(s)) == s
    decreases |s|
  {
    var end := FindSlash(s, 0);
    if end.Some? {
      var rest := s[end.value + 1..];
      JoinOfSplit(rest);
      assert ([s[..end.value]] + Split(rest))[1..] == Split(rest);
      assert s == s[..end.value] + "/" + rest;
    }
  }

  predicate NoSlash(s: string) {
    forall i :: 0 <= i < |s| ==> s[i] != '/'
  }

  lemma {:induction false} SplitOfJoin(parts: seq<string>)
    requires parts != [] && forall i :: 0 <= i < |parts| ==> NoSlash(parts[i])
    ensures Split(Join(parts)) == parts
  {
    var s := Join(parts);
    var end := FindSlash(s, 0);
    assert NoSlash(parts[0]);
    if |parts| > 1 {
      assert s == parts[0] + "/" + Join(parts[1..]);
      assert s[|parts[0]|] == '/';
      assert end.Some? && end.value == |parts[0]|;
      assert s[end.value + 1..] == Join(parts[1..]) && s[..end.value] == parts[0];
      SplitOfJoin(parts[1..]);
      assert parts == [parts[0]] + parts[1..];
    }
  }

  lemma NamesHaveNoSlash(parts: seq<string>)
    requires AllNames(parts)
    ensures forall i :: 0 <= i < |parts| ==> NoSlash(parts[i])
  {
  }

  lemma {:induction false} JoinEndsInName(parts: seq<string>)
    requires parts != [] && AllNames(parts)
    ensures var s := Join(parts); s != "" && IsAlpha(s[0]) && s[|s| - 1] != '/'
  {
    assert IsName(parts[0]);
    if |parts| > 1 {
      assert AllNames(parts[1..]);
      JoinEndsInName(parts[1..]);
    }
  }

  // ---------- the topic prefix ----------

  /** What is left after the trailing slashes are popped. */
  function Trim(s: string): (r: string)
    ensures r <= s && AllSlashes(s[|r|..])
    ensures r != "" ==> r[|r| - 1] != '/'
  {
    if s != "" && s[|s| - 1] == '/' then Trim(s[..|s| - 1]) else s
  }

  lemma SlashesFrom(s: string, start: nat)
    requires start <= |s| && AllSlashes(s[start..])
    ensures forall i :: start <= i < |s| ==> s[i] == '/'
  {
    forall i | start <= i < |s| ensures s[i] == '/' {
      assert s[i] == s[start..][i - start];
    }
  }

  lemma TrimIsUnique(s: string, kept: string)
    requires kept <= s && AllSlashes(s[|kept|..])
    requires kept != "" ==> kept[|kept| - 1] != '/'
    ensures Trim(s) == kept
  {
    SlashesFrom(s, |Trim(s)|);
    SlashesFrom(s, |kept|);
    assert kept != "" ==> s[|kept| - 1] != '/';
    assert Trim(s) != "" ==> s[|Trim(s)| - 1] != '/';
    assert |Trim(s)| == |kept|;
  }

  method PopSlashes(s: string) returns (r: string)
    ensures r == Trim(s)
  {
    r := s;
    while r != "" && r[|r| - 1] == '/'
      invariant Trim(r) == Trim(s)
      decreases |r|
    {
      r := r[..|r| - 1];
    }
  }

  /** The prefixes that are meant: empty or only slashes; or names joined by single slashes,
      after an optional slash and before any number of slashes. */
  ghost predicate PrefixOk(s: string) {
    AllSlashes(s) || exists lead: bool, parts: seq<string>, tail: string :: Reads(s, lead, parts, tail)
  }

  predicate Reads(s: string, lead: bool, parts: seq<string>, tail: string) {
    && parts != [] && AllNames(parts) && AllSlashes(tail)
    && s == (if lead then "/" else "") + Join(parts) + tail
  }

  lemma AcceptedPrefixReads(s: string, lead: bool, body: string)
    requires Trim(s) == (if lead then "/" else "") + body && AllNames(Split(body))
    ensures PrefixOk(s)
  {
    JoinOfSplit(body);
    var tail := s[|Trim(s)|..];
    assert s == Trim(s) + tail;
    assert Reads(s, lead, Split(body), tail);
  }

  /** A readable prefix, trimmed and without one leading slash, splits into its names. */
  lemma ReadablePrefixSplits(s: string, lead: bool, parts: seq<string>, tail: string)
    requires Reads(s, lead, parts, tail)
    ensures var t := Trim(s);
      t != "" && Split(if t[0] == '/' then t[1..] else t) == parts
  {
    var joined := Join(parts);
    var kept := (if lead then "/" else "") + joined;
    JoinEndsInName(parts);
    assert kept[|kept| - 1] == joined[|joined| - 1];
    assert s[|kept|..] == tail;
    TrimIsUnique(s, kept);
    assert (if lead then kept[1..] else kept) == joined;
    NamesHaveNoSlash(parts);
    SplitOfJoin(parts);
  }

  /** A prefix that is not only slashes is readable exactly when its trimmed body splits into
      names. */
  lemma ReadableIff(s: string)
    requires Trim(s) != ""
    ensures var t := Trim(s);
      AllNames(Split(if t[0] == '/' then t[1..] else t)) <==> PrefixOk(s)
  {
    var t := Trim(s);
    var body := if t[0] == '/' then t[1..] else t;
    if AllNames(Split(body)) {
      assert t == (if t[0] == '/' then "/" else "") + body;
      AcceptedPrefixReads(s, t[0] == '/', body);
    }
    if AllSlashes(s) {
      TrimIsUnique(s, "");
    }
    if lead, parts, tail :| Reads(s, lead, parts, tail) {
      ReadablePrefixSplits(s, lead, parts, tail);
    }
  }

  lemma OnlySlashes(s: string)
    requires Trim(s) == ""
    ensures PrefixOk(s)
  {
    assert s[0..] == s;
  }

  /** The splitting loop of validate_config accepts exactly the prefixes that are meant. */
  method PrefixAccepted(prefix: string) returns (ok: bool)
    ensures ok <==> PrefixOk(prefix)
  {
    hide Trim, Split, PrefixOk;
    var normalized := PopSlashes(prefix);
    if normalized == "" {
      OnlySlashes(prefix);
      return true;
    }
    ReadableIff(prefix);
    if normalized[0] == '/' {
      normalized := normalized[1..];
    }
    assert normalized[0..] == normalized;
    var start := 0;
    while true
      invariant 0 <= start <= |normalized|
      invariant PrefixOk(prefix) <==> AllNames(Split(normalized[start..]))
      decreases |normalized| - start
    {
      var end := FindSlash(normalized, start);
      var part := if end.Some? then normalized[start..end.value] else normalized[start..];
      SplitStep(normalized, start, end);
      var valid := ValidName(part);
      if !valid {
        return false;
      }
      if end.None? {
        return true;
      }
      start := end.value + 1;
    }
  }

  lemma FindSlashFrom(s: string, start: nat)
    requires start <= |s|
    ensures var end, found := FindSlash(s, start), FindSlash(s[start..], 0);
      && (end.Some? <==> found.Some?)
      && (end.Some? ==> found.value == end.value - start)
  {
    hide FindSlash;
    var rest := s[start..];
    var end, found := FindSlash(s, start), FindSlash(rest, 0);
    if end.Some? {
      assert rest[end.value - start] == '/';
    }
    if found.Some? {
      assert s[start + found.value] == '/';
    }
  }

  lemma SplitStep(s: string, start: nat, end: Option<nat>)
    requires start <= |s| && end == FindSlash(s, start)
    ensures AllNames(Split(s[start..])) <==>
              if end.None? then IsName(s[start..])
              else IsName(s[start..end.value]) && AllNames(Split(s[end.value + 1..]))
  {
    hide FindSlash, IsName, AllNames;
    var rest := s[start..];
    FindSlashFrom(s, start);
    HeadAndTailNames(Split(rest));
    if end.Some? {
      var length := end.value - start;
      assert rest[..length] == s[start..end.value] && rest[length + 1..] == s[end.value + 1..];
      var parts := [rest[..length]] + Split(rest[length + 1..]);
      assert Split(rest) == parts && parts[0] == rest[..length] && parts[1..] == Split(rest[length + 1..]);
    } else {
      assert Split(rest) == [rest];
      assert Split(rest)[0] == rest && Split(rest)[1..] == [];
      NoNames();
    }
  }

  lemma NoNames()
    ensures AllNames([])
  {
  }

  lemma HeadAndTailNames(parts: seq<string>)
    requires parts != []
    ensures AllNames(parts) <==> IsName(parts[0]) && AllNames(parts[1..])
  {
    if IsName(parts[0]) && AllNames(parts[1..]) {
      forall i | 0 <= i < |parts| ensures IsName(parts[i]) {
        assert i > 0 ==> parts[i] == parts[1..][i - 1];
      }
    }
  }

  // ---------- the whole configuration ----------

  datatype Config = Config(
    urls: seq<string>, names: seq<string>, frameIds: seq<string>, prefix: string,
    openTimeoutMs: int, readTimeoutMs: int, reconnectDelayMs: int, jpegQuality: int)

  datatype ConfigError = Lengths | Timeouts | Quality | UrlScheme | ControlCharacter | CameraName | FrameId | Prefix

  predicate SchemeOk(url: string) {
    "rtsp://" <= url || "rtsps://" <= url
  }

  predicate NoControl(url: string) {
    forall i :: 0 <= i < |url| ==> !IsControl(url[i])
  }

  predicate CamerasOk(c: Config, count: nat)
    requires count <= |c.urls| == |c.names| == |c.frameIds|
  {
    && (forall i :: 0 <= i < count ==> SchemeOk(c.urls[i]) && NoControl(c.urls[i]))
    && (forall i :: 0 <= i < count ==> IsName(c.names[i]) && c.frameIds[i] != "")
    && (forall i, j :: 0 <= i < j < count ==> c.names[i] != c.names[j])
  }

  predicate LengthsOk(c: Config) {
    c.urls != [] && |c.urls| == |c.names| == |c.frameIds|
  }

  predicate TimeoutsOk(c: Config) {
    c.openTimeoutMs >= 1 && c.readTimeoutMs >= 1 && c.reconnectDelayMs >= 1
  }

  predicate QualityOk(c: Config) {
    1 <= c.jpegQuality <= 100
  }

  /** What is wrong with camera i, given the ones before it. */
  function CameraFault(c: Config, i: nat): Option<ConfigError>
    requires i < |c.urls| == |c.names| == |c.frameIds|
  {
    if !SchemeOk(c.urls[i]) then Some(UrlScheme)
    else if !NoControl(c.urls[i]) then Some(ControlCharacter)
    else if !IsName(c.names[i]) || c.names[i] in c.names[..i] then Some(CameraName)
    else if c.frameIds[i] == "" then Some(FrameId)
    else None
  }

  predicate FirstFault(c: Config, i: nat, e: ConfigError)
    requires i < |c.urls| == |c.names| == |c.frameIds|
  {
    CamerasOk(c, i) && CameraFault(c, i) == Some(e)
  }

  ghost predicate ConfigOk(c: Config) {
    && LengthsOk(c) && TimeoutsOk(c) && QualityOk(c)
    && CamerasOk(c, |c.urls|)
    && PrefixOk(c.prefix)
  }

  method HasControl(url: string) returns (found: bool)
    ensures found <==> !NoControl(url)
  {
    for i := 0 to |url|
      invariant forall k :: 0 <= k < i ==> !IsControl(url[k])
    {
      if IsControl(url[i]) {
        return true;
      }
    }
    return false;
  }

  /** validate_config: None stands for a normal return, Some for the exception thrown, which
      tells the first thing wrong. */
  method ValidateConfig(c: Config) returns (error: Option<ConfigError>)
    ensures error.None? <==> ConfigOk(c)
    ensures error == Some(Lengths) <==> !LengthsOk(c)
    ensures error == Some(Timeouts) <==> LengthsOk(c) && !TimeoutsOk(c)
    ensures error == Some(Quality) <==> LengthsOk(c) && TimeoutsOk(c) && !QualityOk(c)
    ensures error.Some? && error.value in {UrlScheme, ControlCharacter, CameraName, FrameId} ==>
              LengthsOk(c) && exists i :: 0 <= i < |c.urls| && FirstFault(c, i, error.value)
    ensures error == Some(Prefix) ==> LengthsOk(c) && CamerasOk(c, |c.urls|) && !PrefixOk(c.prefix)
  {
    if c.urls == [] || |c.urls| != |c.names| || |c.urls| != |c.frameIds| {
      return Some(Lengths);
    }
    if c.openTimeoutMs < 1 || c.readTimeoutMs < 1 || c.reconnectDelayMs < 1 {
      return Some(Timeouts);
    }
    if c.jpegQuality < 1 || c.jpegQuality > 100 {
      return Some(Quality);
    }
    var seen: set<string> := {};
    for i := 0 to |c.urls|
      invariant CamerasOk(c, i)
      invariant forall n :: n in seen <==> n in c.names[..i]
    {
      assert c.names[..i + 1] == c.names[..i] + [c.names[i]];
      if !("rtsp://" <= c.urls[i]) && !("rtsps://" <= c.urls[i]) {
        assert FirstFault(c, i, UrlScheme);
        return Some(UrlScheme);
      }
      var control := HasControl(c.urls[i]);
      if control {
        assert FirstFault(c, i, ControlCharacter);
        return Some(ControlCharacter);
      }
      var named := ValidName(c.names[i]);
      if !named || c.names[i] in seen {
        assert FirstFault(c, i, CameraName);
        return Some(CameraName);
      }
      seen := seen + {c.names[i]};
      if c.frameIds[i] == "" {
        assert FirstFault(c, i, FrameId);
        return Some(FrameId);
      }
    }
    var accepted := PrefixAccepted(c.prefix);
    if !accepted {
      return Some(Prefix);
    }
    return None;
  }

  // ---------- topics ----------

  const RAW: string := "/image_raw"
  const COMPRESSED: string := "/compressed"

  function RawTopic(prefix: string, camera: string): string {
    (if Trim(prefix) == "" then "" else Trim(prefix) + "/") + camera + RAW
  }

  function CompressedTopic(prefix: string, camera: string): string {
    RawTopic(prefix, camera) + COMPRESSED
  }

  method ImageTopic(prefix: string, camera: string) returns (topic: string)
    ensures topic == RawTopic(prefix, camera)
  {
    var result := PopSlashes(prefix);
    if result == "" {
      return camera + "/image_raw";
    }
    return result + "/" + camera + "/image_raw";
  }

  lemma SameEnds(a: string, b: string, front: string, back: string)
    requires front + a + back == front + b + back
    ensures a == b
  {
    assert |a| == |b|;
    assert a == (front + a + back)[|front|..|front| + |a|];
    assert b == (front + b + back)[|front|..|front| + |b|];
  }

  /** For every accepted configuration the raw and compressed topics of all its cameras are
      pairwise distinct. */
  lemma TopicsAreDistinct(c: Config, i: nat, j: nat)
    requires ConfigOk(c) && i < |c.names| && j < |c.names|
    ensures RawTopic(c.prefix, c.names[i]) != CompressedTopic(c.prefix, c.names[j])
    ensures i != j ==> RawTopic(c.prefix, c.names[i]) != RawTopic(c.prefix, c.names[j])
    ensures i != j ==> CompressedTopic(c.prefix, c.names[i]) != CompressedTopic(c.prefix, c.names[j])
  {
    var front := if Trim(c.prefix) == "" then "" else Trim(c.prefix) + "/";
    var raw, compressed := RawTopic(c.prefix, c.names[i]), CompressedTopic(c.prefix, c.names[j]);
    assert raw[|raw| - 1] == RAW[|RAW| - 1] == 'w';
    assert compressed[|compressed| - 1] == COMPRESSED[|COMPRESSED| - 1] == 'd';
    if i != j {
      assert c.names[i] != c.names[j];
      if RawTopic(c.prefix, c.names[i]) == RawTopic(c.prefix, c.names[j]) {
        SameEnds(c.names[i], c.names[j], front, RAW);
      }
      if CompressedTopic(c.prefix, c.names[i]) == CompressedTopic(c.prefix, c.names[j]) {
        assert CompressedTopic(c.prefix, c.names[i]) == front + c.names[i] + (RAW + COMPRESSED);
        assert CompressedTopic(c.prefix, c.names[j]) == front + c.names[j] + (RAW + COMPRESSED);
        SameEnds(c.names[i], c.names[j], front, RAW + COMPRESSED);
      }
    }
  }

  lemma {:induction false} JoinConcat(a: seq<string>, b: seq<string>)
    requires a != [] && b != []
    ensures Join(a + b) == Join(a) + "/" + Join(b)
  {
    if |a| == 1 {
      assert (a + b)[1..] == b;
    } else {
      assert (a + b)[1..] == a[1..] + b;
      JoinConcat(a[1..], b);
    }
  }

  /** The tokens of a topic, after an optional leading slash. */
  function Tokens(topic: string): seq<string> {
    Split(if topic != "" && topic[0] == '/' then topic[1..] else topic)
  }

  lemma CameraPath(camera: string)
    requires IsName(camera)
    ensures AllNames([camera, "image_raw"]) && Join([camera, "image_raw"]) == camera + RAW
  {
    assert [camera, "image_raw"][1..] == ["image_raw"];
    assert Join(["image_raw"]) == "image_raw";
    assert "/" + "image_raw" == RAW;
  }

  /** A prefix read as names gives a topic of those names, the camera and "image_raw", after the
      prefix's leading slash if it has one. */
  lemma TopicOfNames(prefix: string, lead: bool, parts: seq<string>, slashes: string, camera: string)
    requires Reads(prefix, lead, parts, slashes) && IsName(camera)
    ensures var path := parts + [camera, "image_raw"];
      AllNames(path) && RawTopic(prefix, camera) == (if lead then "/" else "") + Join(path)
  {
    CameraPath(camera);
    PrefixBecomesPath(prefix, lead, parts, slashes, [camera, "image_raw"]);
  }

  /** A prefix of slashes only, or none, gives a topic of the camera and "image_raw". */
  lemma TopicOfSlashes(prefix: string, camera: string)
    requires AllSlashes(prefix) && IsName(camera)
    ensures RawTopic(prefix, camera) == Join([camera, "image_raw"])
  {
    CameraPath(camera);
    TrimIsUnique(prefix, "");
  }

  /** The raw topic of an accepted configuration is a path of names. */
  lemma RawTopicIsPath(prefix: string, camera: string) returns (lead: bool, path: seq<string>)
    requires PrefixOk(prefix) && IsName(camera)
    ensures path != [] && AllNames(path)
    ensures RawTopic(prefix, camera) == (if lead then "/" else "") + Join(path)
  {
    CameraPath(camera);
    if AllSlashes(prefix) {
      TopicOfSlashes(prefix, camera);
      lead, path := false, [camera, "image_raw"];
    } else {
      var l, parts, slashes :| Reads(prefix, l, parts, slashes);
      TopicOfNames(prefix, l, parts, slashes, camera);
      lead, path := l, parts + [camera, "image_raw"];
    }
  }

  lemma CompressedExtends(t: string, lead: bool, path: seq<string>)
    requires path != [] && AllNames(path) && t == (if lead then "/" else "") + Join(path)
    ensures AllNames(path + ["compressed"])
    ensures t + COMPRESSED == (if lead then "/" else "") + Join(path + ["compressed"])
  {
    JoinConcat(path, ["compressed"]);
    assert Join(["compressed"]) == "compressed";
    assert COMPRESSED == "/" + "compressed";
    assert Join(path) + COMPRESSED == Join(path) + "/" + "compressed";
  }

  /** Every token of every topic of an accepted configuration is a valid name. */
  lemma TopicTokensAreNames(c: Config, i: nat)
    requires ConfigOk(c) && i < |c.names|
    ensures AllNames(Tokens(RawTopic(c.prefix, c.names[i])))
    ensures AllNames(Tokens(CompressedTopic(c.prefix, c.names[i])))
  {
    var lead, path := RawTopicIsPath(c.prefix, c.names[i]);
    TokensOfPath(RawTopic(c.prefix, c.names[i]), lead, path);
    CompressedExtends(RawTopic(c.prefix, c.names[i]), lead, path);
    TokensOfPath(CompressedTopic(c.prefix, c.names[i]), lead, path + ["compressed"]);
  }

  lemma PrefixBecomesPath(prefix: string, lead: bool, parts: seq<string>, slashes: string, tail: seq<string>)
    requires Reads(prefix, lead, parts, slashes) && tail != []
    ensures Trim(prefix) != "" && Trim(prefix) + "/" + Join(tail) == (if lead then "/" else "") + Join(parts + tail)
  {
    var kept := (if lead then "/" else "") + Join(parts);
    JoinEndsInName(parts);
    assert kept[|kept| - 1] == Join(parts)[|Join(parts)| - 1];
    assert prefix[|kept|..] == slashes;
    TrimIsUnique(prefix, kept);
    JoinConcat(parts, tail);
  }

  lemma TokensOfPath(t: string, lead: bool, parts: seq<string>)
    requires parts != [] && AllNames(parts) && t == (if lead then "/" else "") + Join(parts)
    ensures Tokens(t) == parts
  {
    JoinEndsInName(parts);
    assert if lead then t[1..] == Join(parts) else t == Join(parts);
    NamesHaveNoSlash(parts);
    SplitOfJoin(parts);
  }
}

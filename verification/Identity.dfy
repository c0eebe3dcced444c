/** Names: what a join payload is reduced to, and the identifiers built from it. */
module Identity {
  import opened Common
  import opened Rooms

  const MAX_PARSED_LENGTH := 50

  // Sanitising (sfu/ws_conn.go)

  predicate Allowed(c: char) {
    'a' <= c <= 'z' || 'A' <= c <= 'Z' || '0' <= c <= '9' || c == '-' || c == '_'
  }

  ghost predicate Clean(s: string) {
    forall k | 0 <= k < |s| :: Allowed(s[k])
  }

  function OnlyAllowed(s: string): string {
    if s == "" then "" else (if Allowed(s[0]) then [s[0]] else "") + OnlyAllowed(s[1..])
  }

  /** A name that is too long is cut to one character less than the maximum. */
  function ParseString(s: string): string {
    var clean := OnlyAllowed(s);
    if |clean| > MAX_PARSED_LENGTH then clean[0..MAX_PARSED_LENGTH - 1] else clean
  }

  lemma {:induction false} OnlyAllowedIsClean(s: string)
    ensures Clean(OnlyAllowed(s)) && (Clean(s) <==> OnlyAllowed(s) == s) && |OnlyAllowed(s)| <= |s|
    decreases |s|
  {
    if s == "" {
    } else {
      OnlyAllowedIsClean(s[1..]);
      if Allowed(s[0]) {
        assert OnlyAllowed(s)[1..] == OnlyAllowed(s[1..]);
        assert Clean(s) <==> Clean(s[1..]) by {
          forall k | 0 <= k < |s| - 1 ensures s[1..][k] == s[k + 1] {}
          assert Clean(s[1..]) ==> forall k | 1 <= k < |s| :: s[k] == s[1..][k - 1];
        }
        assert s == [s[0]] + s[1..];
      }
    }
  }

  /** Sanitising keeps the allowed characters of a name, all of them and in order, and no other. */
  lemma {:induction false} OnlyAllowedConcat(s: string, t: string)
    ensures OnlyAllowed(s + t) == OnlyAllowed(s) + OnlyAllowed(t)
    decreases |s|
  {
    if s == "" {
      assert s + t == t;
    } else {
      var first := if Allowed(s[0]) then [s[0]] else "";
      assert (s + t)[0] == s[0] && (s + t)[1..] == s[1..] + t;
      OnlyAllowedConcat(s[1..], t);
      assert first + (OnlyAllowed(s[1..]) + OnlyAllowed(t)) == first + OnlyAllowed(s[1..]) + OnlyAllowed(t);
    }
  }

  /** The allowed ones by their codes: letters, digits, dash and underscore. */
  lemma OnlyAllowedOne(c: char)
    ensures var code := c as int;
            OnlyAllowed([c])
            == if 97 <= code <= 122 || 65 <= code <= 90 || 48 <= code <= 57 || code == 45 || code == 95 then [c] else ""
  {
    assert [c][1..] == "";
  }

  /** Nothing is left of a name exactly if it has no allowed character. */
  lemma {:induction false} NothingAllowed(s: string)
    ensures OnlyAllowed(s) == "" <==> forall k | 0 <= k < |s| :: !Allowed(s[k])
    decreases |s|
  {
    if s == "" {
    } else {
      NothingAllowed(s[1..]);
      assert forall k | 1 <= k < |s| :: s[k] == s[1..][k - 1];
    }
  }

  /** A name of at most 50 allowed characters keeps them all, a longer one its first 49. */
  lemma ParseStringCut(s: string)
    ensures |OnlyAllowed(s)| <= 50 ==> ParseString(s) == OnlyAllowed(s)
    ensures |OnlyAllowed(s)| > 50 ==> |ParseString(s)| == 49 && ParseString(s) <= OnlyAllowed(s)
  {
  }

  /** The names left alone are exactly the clean ones that are short enough, and sanitising always gives such a name. */
  lemma ParseStringFixpoints(s: string)
    ensures ParseString(s) == s <==> Clean(s) && |s| <= MAX_PARSED_LENGTH
    ensures Clean(ParseString(s)) && |ParseString(s)| <= MAX_PARSED_LENGTH
    ensures ParseString(ParseString(s)) == ParseString(s)
    ensures '#' !in ParseString(s)
  {
    OnlyAllowedIsClean(s);
    OnlyAllowedIsClean(ParseString(s));
  }

  datatype Incoming = ReadFailed | Incoming(kind: string, payload: JoinPayload, decoded: bool)

  datatype JoinError = ReadError | WrongKind | CorruptPayload | NoInteractionName | NoUserId

  // Defaults (sfu/defaults.go)

  const DEFAULT_VIDEO_FORMAT := "H264"
  const VIDEO_FORMATS := ["VP8", "H264"]
  const RECORDING_MODES := ["forced", "free", "reenc", "split", "rtpbin_only", "none", "direct", "bypass"]
  const DEFAULT_RECORDING_MODE := "muxed"
  const DEFAULT_WIDTH := 800
  const DEFAULT_HEIGHT := 600
  const DEFAULT_FRAMERATE := 25

  function OneOf(s: string, allowed: seq<string>, default: string): string {
    if s in allowed then s else default
  }

  function NonZero(n: int, default: int): int {
    if n == 0 then default else n
  }

  function Sanitised(jp: JoinPayload, origin: string): JoinPayload {
    jp.(namespace := ParseString(jp.namespace), interactionName := ParseString(jp.interactionName),
        userId := ParseString(jp.userId),
        videoFormat := OneOf(jp.videoFormat, VIDEO_FORMATS, DEFAULT_VIDEO_FORMAT),
        recordingMode := OneOf(jp.recordingMode, RECORDING_MODES, DEFAULT_RECORDING_MODE),
        width := NonZero(jp.width, DEFAULT_WIDTH), height := NonZero(jp.height, DEFAULT_HEIGHT),
        framerate := NonZero(jp.framerate, DEFAULT_FRAMERATE), origin := origin)
  }

  ghost predicate CleanNames(jp: JoinPayload) {
    && Clean(jp.namespace) && |jp.namespace| <= MAX_PARSED_LENGTH
    && Clean(jp.interactionName) && |jp.interactionName| <= MAX_PARSED_LENGTH
    && Clean(jp.userId) && |jp.userId| <= MAX_PARSED_LENGTH
  }

  /** The requests left alone: negative sizes and rates are, and so is the default recording mode outside the list. */
  ghost predicate Acceptable(jp: JoinPayload) {
    && CleanNames(jp)
    && (jp.videoFormat == "VP8" || jp.videoFormat == "H264")
    && (jp.recordingMode in RECORDING_MODES || jp.recordingMode == "muxed")
    && jp.width != 0 && jp.height != 0 && jp.framerate != 0
  }

  /** Sanitising gives an acceptable request, and changes nothing but the origin of exactly those. */
  lemma SanitisedFixpoints(jp: JoinPayload, origin: string)
    ensures Acceptable(Sanitised(jp, origin))
    ensures Sanitised(jp, origin) == jp.(origin := origin) <==> Acceptable(jp)
    ensures Sanitised(Sanitised(jp, origin), origin) == Sanitised(jp, origin)
  {
    ParseStringFixpoints(jp.namespace);
    ParseStringFixpoints(jp.interactionName);
    ParseStringFixpoints(jp.userId);
  }

  /** What takes the place of what is not acceptable. */
  lemma SanitisedDefaults(jp: JoinPayload, origin: string)
    ensures var s := Sanitised(jp, origin);
            && s.videoFormat == (if jp.videoFormat == "VP8" || jp.videoFormat == "H264" then jp.videoFormat else "H264")
            && s.recordingMode == (if jp.recordingMode in RECORDING_MODES then jp.recordingMode else "muxed")
            && (jp.width == 0 ==> s.width == 800) && (jp.width != 0 ==> s.width == jp.width)
            && (jp.height == 0 ==> s.height == 600) && (jp.height != 0 ==> s.height == jp.height)
            && (jp.framerate == 0 ==> s.framerate == 25) && (jp.framerate != 0 ==> s.framerate == jp.framerate)
            && s.size == jp.size && s.duration == jp.duration && s.audioOnly == jp.audioOnly && s.origin == origin
  {
  }

  /** The checks on a first message, in order; a payload that was only partly decoded is rejected last. */
  function JoinErrorOf(m: Incoming, origin: string): Option<JoinError> {
    if m.ReadFailed? then Some(ReadError)
    else if m.kind != "join" then Some(WrongKind)
    else if Sanitised(m.payload, origin).interactionName == "" then Some(NoInteractionName)
    else if Sanitised(m.payload, origin).userId == "" then Some(NoUserId)
    else if !m.decoded then Some(CorruptPayload)
    else None
  }

  ghost predicate NoneAllowed(s: string) {
    forall k | 0 <= k < |s| :: !Allowed(s[k])
  }

  /** Which message gives which error: a name is missing when it has no allowed character. */
  lemma JoinErrorCases(m: Incoming, origin: string)
    ensures JoinErrorOf(m, origin) == Some(ReadError) <==> m.ReadFailed?
    ensures JoinErrorOf(m, origin) == Some(WrongKind) <==> m.Incoming? && m.kind != "join"
    ensures JoinErrorOf(m, origin) == Some(NoInteractionName) <==>
      m.Incoming? && m.kind == "join" && NoneAllowed(m.payload.interactionName)
    ensures JoinErrorOf(m, origin) == Some(NoUserId) <==>
      m.Incoming? && m.kind == "join" && !NoneAllowed(m.payload.interactionName) && NoneAllowed(m.payload.userId)
    ensures JoinErrorOf(m, origin) == None <==>
      m.Incoming? && m.kind == "join" && !NoneAllowed(m.payload.interactionName) && !NoneAllowed(m.payload.userId)
      && m.decoded
  {
    if m.Incoming? {
      NothingAllowed(m.payload.interactionName);
      NothingAllowed(m.payload.userId);
    }
  }

  class WsConn {
    var userId: UserId
    var interactionName: string
    var namespace: string

    constructor ()
      ensures userId == "" && interactionName == "" && namespace == ""
    {
      userId, interactionName, namespace := "", "", "";
    }

    /** Reads the join request. The connection takes its names from any request that has them, even a corrupt one. */
    method ReadJoin(m: Incoming, origin: string) returns (error: Option<JoinError>, jp: JoinPayload)
      modifies this
      ensures error == JoinErrorOf(m, origin)
      ensures error == None || error == Some(CorruptPayload) ==>
        && m.Incoming? && jp == Sanitised(m.payload, origin)
        && userId == jp.userId != "" && interactionName == jp.interactionName != "" && namespace == jp.namespace
      ensures !(error == None || error == Some(CorruptPayload)) ==>
        userId == old(userId) && interactionName == old(interactionName) && namespace == old(namespace)
    {
      jp := JoinPayload("", "", "", "", "", "", 0, 0, 0, 0, 0, false);
      if m.ReadFailed? {
        return Some(ReadError), jp;
      } else if m.kind != "join" {
        return Some(WrongKind), jp;
      }
      error := if m.decoded then None else Some(CorruptPayload);
      jp := m.payload;
      jp := jp.(namespace := ParseString(jp.namespace));
      jp := jp.(interactionName := ParseString(jp.interactionName));
      jp := jp.(userId := ParseString(jp.userId));
      jp := jp.(videoFormat := OneOf(jp.videoFormat, VIDEO_FORMATS, DEFAULT_VIDEO_FORMAT));
      jp := jp.(recordingMode := OneOf(jp.recordingMode, RECORDING_MODES, DEFAULT_RECORDING_MODE));
      jp := jp.(width := NonZero(jp.width, DEFAULT_WIDTH), height := NonZero(jp.height, DEFAULT_HEIGHT));
      jp := jp.(framerate := NonZero(jp.framerate, DEFAULT_FRAMERATE));
      jp := jp.(origin := origin);
      if |jp.interactionName| == 0 {
        return Some(NoInteractionName), jp;
      }
      if |jp.userId| == 0 {
        return Some(NoUserId), jp;
      }
      interactionName := jp.interactionName;
      userId := jp.userId;
      namespace := jp.namespace;
    }
  }

  // Room ids (sfu/interaction.go)

  function GenerateId(jp: JoinPayload): string {
    jp.origin + "#" + jp.namespace + "#" + jp.interactionName
  }

  lemma GenerateIdExample(jp: JoinPayload)
    requires jp.origin == "https://x" && jp.namespace == "space" && jp.interactionName == "room"
    ensures GenerateId(jp) == "https://x#space#room"
  {
  }

  lemma LastSeparator(s: string, a: string, x: string, separator: char)
    requires s == a + [separator] + x && separator !in x
    ensures s[|a|] == separator && forall j | |a| < j < |s| :: s[j] != separator
  {
    forall j | |a| < j < |s| ensures s[j] != separator {
      assert s[j] == x[j - |a| - 1];
    }
  }

  /** A separator that the last part does not contain splits a string in one way only. */
  lemma SplitAtLast(a: string, x: string, b: string, y: string, separator: char)
    requires a + [separator] + x == b + [separator] + y && separator !in x && separator !in y
    ensures a == b && x == y
  {
    var s := a + [separator] + x;
    LastSeparator(s, a, x, separator);
    LastSeparator(s, b, y, separator);
    assert a == s[..|a|] && b == s[..|b|];
    assert x == s[|a| + 1..] && y == s[|b| + 1..];
  }

  /** Two sanitised joins meet in one room exactly when origin, namespace and name agree, whatever the origin is. */
  lemma SameRoomIff(p: JoinPayload, q: JoinPayload, originP: string, originQ: string)
    ensures var a, b := Sanitised(p, originP), Sanitised(q, originQ);
            GenerateId(a) == GenerateId(b)
            <==> originP == originQ && a.namespace == b.namespace && a.interactionName == b.interactionName
  {
    var a, b := Sanitised(p, originP), Sanitised(q, originQ);
    ParseStringFixpoints(p.namespace);
    ParseStringFixpoints(q.namespace);
    ParseStringFixpoints(p.interactionName);
    ParseStringFixpoints(q.interactionName);
    if GenerateId(a) == GenerateId(b) {
      SplitAtLast(originP + "#" + a.namespace, a.interactionName, originQ + "#" + b.namespace, b.interactionName, '#');
      SplitAtLast(originP, a.namespace, originQ, b.namespace, '#');
    }
  }

  // Recording names (gst/pipeline.go)

  function Digit(d: nat): char
    requires d < 10
  {
    '0' + d as char
  }

  function Decimal(n: nat): string {
    if n < 10 then [Digit(n)] else Decimal(n / 10) + [Digit(n % 10)]
  }

  lemma {:induction false} DecimalIsInjective(m: nat, n: nat)
    ensures '-' !in Decimal(m)
    ensures Decimal(m) == Decimal(n) ==> m == n
    decreases m
  {
    if m >= 10 {
      DecimalIsInjective(m / 10, n / 10);
    }
    if Decimal(m) == Decimal(n) {
      DecimalIsLong(m);
      DecimalIsLong(n);
      assert Decimal(m)[|Decimal(m)| - 1] == Digit(m % 10);
      assert Decimal(n)[|Decimal(n)| - 1] == Digit(n % 10);
      DigitIsInjective(m % 10, n % 10);
      if m >= 10 {
        assert Decimal(m)[..|Decimal(m)| - 1] == Decimal(m / 10);
        assert Decimal(n)[..|Decimal(n)| - 1] == Decimal(n / 10);
      }
    }
  }

  /** Reading a decimal number back. */
  function ValueOf(s: string): int {
    if s == "" then 0 else 10 * ValueOf(s[..|s| - 1]) + (s[|s| - 1] as int - '0' as int)
  }

  lemma {:induction false} DecimalRoundTrip(n: nat)
    ensures ValueOf(Decimal(n)) == n
    ensures forall k | 0 <= k < |Decimal(n)| :: '0' <= Decimal(n)[k] <= '9'
    decreases n
  {
    var s := Decimal(n);
    if n < 10 {
      assert s[..|s| - 1] == "";
    } else {
      DecimalRoundTrip(n / 10);
      assert s[..|s| - 1] == Decimal(n / 10) && s[|s| - 1] == Digit(n % 10);
    }
  }

  lemma DecimalIsLong(n: nat)
    ensures |Decimal(n)| >= 1 && (|Decimal(n)| == 1 <==> n < 10)
  {
  }

  lemma DigitIsInjective(d: nat, e: nat)
    requires d < 10 && e < 10
    ensures Digit(d) == Digit(e) ==> d == e
  {
    assert Digit(d) as int == '0' as int + d && Digit(e) as int == '0' as int + e;
  }

  datatype Recording = Recording(
    randomId: string, time: string, namespace: string, name: string, user: UserId, number: nat)

  function FilePrefix(r: Recording): string {
    "i-" + r.randomId + "-a-" + r.time + "-s-" + r.namespace + "-n-" + r.name
    + "-u-" + r.user + "-c-" + Decimal(r.number)
  }

  /** The order of the fields, and the marks between them. */
  lemma FilePrefixExample()
    ensures FilePrefix(Recording("R", "T", "X", "Y", "Z", 3)) == "i-R-a-T-s-X-n-Y-u-Z-c-3"
  {
    assert Decimal(3) == "3";
  }

  function RoomPart(r: Recording): string {
    "i-" + r.randomId + "-a-" + r.time + "-s-" + r.namespace + "-n-" + r.name + "-u-"
  }

  /** The connection number is what follows the last dash, even when the user's name has dashes. */
  lemma NumberIsLast(r: Recording, t: Recording)
    requires FilePrefix(r) == FilePrefix(t)
    ensures r.number == t.number && RoomPart(r) + r.user == RoomPart(t) + t.user
  {
    DecimalIsInjective(r.number, t.number);
    DecimalIsInjective(t.number, r.number);
    var a, b := RoomPart(r) + r.user + "-c", RoomPart(t) + t.user + "-c";
    assert FilePrefix(r) == a + ['-'] + Decimal(r.number);
    assert FilePrefix(t) == b + ['-'] + Decimal(t.number);
    SplitAtLast(a, Decimal(r.number), b, Decimal(t.number), '-');
    assert a[..|a| - 2] == RoomPart(r) + r.user;
    assert b[..|b| - 2] == RoomPart(t) + t.user;
  }

  /** Random ids (32 digits) and timestamps (19 characters) have a fixed length. */
  predicate SameWidths(r: Recording, t: Recording) {
    |r.randomId| == |t.randomId| && |r.time| == |t.time|
  }

  lemma FixedFields(r: Recording)
    ensures var whole, n, m := RoomPart(r) + r.user, |r.randomId|, |r.time|;
            |whole| >= 5 + n + m && whole[2..2 + n] == r.randomId && whole[5 + n..5 + n + m] == r.time
  {
    var rest := "-s-" + r.namespace + "-n-" + r.name + "-u-" + r.user;
    assert RoomPart(r) + r.user == "i-" + r.randomId + "-a-" + r.time + rest;
  }

  /** Equal prefixes come from the same room and moment; within a room, from the same user and connection number. */
  lemma FilePrefixIsInjective(r: Recording, t: Recording)
    requires SameWidths(r, t)
    requires r.randomId == t.randomId ==> r.namespace == t.namespace && r.name == t.name
    ensures FilePrefix(r) == FilePrefix(t) <==> r == t
  {
    if FilePrefix(r) == FilePrefix(t) {
      NumberIsLast(r, t);
      var whole := RoomPart(r) + r.user;
      var n, m := |r.randomId|, |r.time|;
      FixedFields(r);
      FixedFields(t);
      assert RoomPart(r) == RoomPart(t);
      assert r.user == whole[|RoomPart(r)|..] == t.user;
    }
  }

  /** Across rooms the random id is what tells names apart: namespaces and names may hold the marks between fields. */
  lemma MarksAreAmbiguous() returns (r: Recording, t: Recording)
    ensures r.namespace != t.namespace && Clean(r.namespace) && Clean(t.namespace)
    ensures r.name != t.name && Clean(r.name) && Clean(t.name)
    ensures FilePrefix(r) == FilePrefix(t)
  {
    r := Recording("0", "0", "a", "b-n-c", "u", 1);
    t := Recording("0", "0", "a-n-b", "c", "u", 1);
    assert "a" + "-n-" + "b-n-c" == "a-n-b" + "-n-" + "c";
    assert FilePrefix(r) == "i-0-a-0-s-a-n-b-n-c-u-u-c-" + Decimal(1);
    assert FilePrefix(t) == "i-0-a-0-s-a-n-b-n-c-u-u-c-" + Decimal(1);
  }
}

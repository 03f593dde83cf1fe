/** Device topics: the parser, the builders, re-addressing, and who the downstream filters reach. */
module Topics {
  import opened Common
  import opened Text

  datatype Category = Event | Service | UserGet | Ota

  datatype ParsedTopic = ParsedTopic(productKey: string, deviceName: string, category: Category, detail: string)

  // ---- Builders -------------------------------------------------------------------------

  function EventPostTopic(pk: string, dn: string, event: string): string {
    Joined(["", "sys", pk, dn, "thing", "event", event, "post"], '/')
  }

  function EventReplyTopic(pk: string, dn: string, event: string): string {
    Joined(["", "sys", pk, dn, "thing", "event", event, "post_reply"], '/')
  }

  function ServiceTopic(pk: string, dn: string, service: string): string {
    Joined(["", "sys", pk, dn, "thing", "service", service], '/')
  }

  function UserGetTopic(pk: string, dn: string): string { Joined(["", pk, dn, "user", "get"], '/') }

  function OtaInformTopic(pk: string, dn: string): string { Joined(["", "ota", "device", "inform", pk, dn], '/') }

  function OtaUpgradeTopic(pk: string, dn: string): string { Joined(["", "ota", "device", "upgrade", pk, dn], '/') }

  // ---- Parser ----------------------------------------------------------------------------

  /** The end of a pattern: `$` also matches before one final line end. */
  predicate EndsAs(level: string, word: string) { level == word || level == word + "\n" }

  predicate IsEvent(ls: seq<string>) {
    && |ls| == 8 && ls[0] == "" && ls[1] == "sys" && ls[2] != "" && ls[3] != ""
    && ls[4] == "thing" && ls[5] == "event" && ls[6] != "" && EndsAs(ls[7], "post")
  }

  function WithoutFinalLineEnd(s: string): string {
    if s != "" && s[|s| - 1] == '\n' then s[..|s| - 1] else s
  }

  predicate IsService(ls: seq<string>) {
    && |ls| >= 7 && ls[0] == "" && ls[1] == "sys" && ls[2] != "" && ls[3] != ""
    && ls[4] == "thing" && ls[5] == "service"
    && ServiceOf(ls) != "" && Free(ServiceOf(ls), '\n')
  }

  /** Everything after the sixth level, which may hold further levels. */
  function ServiceOf(ls: seq<string>): string
    requires |ls| >= 7
  {
    WithoutFinalLineEnd(Joined(ls[6..], '/'))
  }

  predicate IsUserGet(ls: seq<string>) {
    |ls| == 5 && ls[0] == "" && ls[1] != "" && ls[2] != "" && ls[3] == "user" && EndsAs(ls[4], "get")
  }

  predicate IsOta(ls: seq<string>, word: string) {
    && |ls| == 6 && ls[0] == "" && ls[1] == "ota" && ls[2] == "device" && ls[3] == word
    && ls[4] != "" && ls[5] != ""
  }

  function ParseTopic(topic: string): Option<ParsedTopic> {
    var ls := Split(topic, '/');
    if IsEvent(ls) then Some(ParsedTopic(ls[2], ls[3], Event, ls[6]))
    else if IsService(ls) then Some(ParsedTopic(ls[2], ls[3], Service, ServiceOf(ls)))
    else if IsUserGet(ls) then Some(ParsedTopic(ls[1], ls[2], UserGet, "get"))
    else if IsOta(ls, "inform") then Some(ParsedTopic(ls[4], ls[5], Ota, "inform"))
    else if IsOta(ls, "upgrade") then Some(ParsedTopic(ls[4], ls[5], Ota, "upgrade"))
    else None
  }

  /** The topic of a parsed form. */
  function Built(p: ParsedTopic): string {
    match p.category
    case Event => EventPostTopic(p.productKey, p.deviceName, p.detail)
    case Service => ServiceTopic(p.productKey, p.deviceName, p.detail)
    case UserGet => UserGetTopic(p.productKey, p.deviceName)
    case Ota =>
      if p.detail == "inform" then OtaInformTopic(p.productKey, p.deviceName)
      else OtaUpgradeTopic(p.productKey, p.deviceName)
  }

  function RewriteTopic(topic: string, pk: string, dn: string): Option<string> {
    match ParseTopic(topic)
    case None => None
    case Some(p) => Some(Built(p.(productKey := pk, deviceName := dn)))
  }

  predicate EndsWith(s: string, suffix: string) { |s| >= |suffix| && s[|s| - |suffix|..] == suffix }

  predicate IsServerPublished(p: ParsedTopic) {
    !EndsWith(p.detail, "_reply") &&
    (p.category == Service || p.category == UserGet || (p.category == Ota && p.detail == "upgrade"))
  }

  function DownstreamFilters(pk: string, dn: string): seq<string> {
    [ServiceTopic(pk, dn, "#"), EventReplyTopic(pk, dn, "+"), UserGetTopic(pk, dn)]
  }

  // ---- What a parsed topic may hold --------------------------------------------------------

  predicate Identity(pk: string, dn: string) { pk != "" && dn != "" && Free(pk, '/') && Free(dn, '/') }

  /** The details a topic of each category can carry. */
  predicate Carries(category: Category, detail: string) {
    match category
    case Event => detail != "" && Free(detail, '/')
    case Service => detail != "" && Free(detail, '\n')
    case UserGet => detail == "get"
    case Ota => detail == "inform" || detail == "upgrade"
  }

  predicate Valid(p: ParsedTopic) { Identity(p.productKey, p.deviceName) && Carries(p.category, p.detail) }

  // ---- Levels of a joined topic ----------------------------------------------------------------

  predicate AllFree(parts: seq<string>) { forall i :: 0 <= i < |parts| ==> Free(parts[i], '/') }

  lemma {:induction false} JoinedSnoc(parts: seq<string>, last: string)
    requires parts != []
    ensures Joined(parts + [last], '/') == Joined(parts, '/') + "/" + last
    decreases |parts|
  {
    if |parts| > 1 {
      assert (parts + [last])[1..] == parts[1..] + [last];
      JoinedSnoc(parts[1..], last);
    } else {
      assert (parts + [last])[1..] == [last];
    }
  }

  lemma {:induction false} LevelsMore(first: string, parts: seq<string>, last: string)
    requires Free(first, '/') && Split(Joined(parts + [last], '/'), '/') == parts + Split(last, '/')
    ensures Split(Joined([first] + parts + [last], '/'), '/') == [first] + parts + Split(last, '/')
  {
    var tail := parts + [last];
    assert [first] + parts + [last] == [first] + tail;
    assert ([first] + tail)[1..] == tail;
    SplitFirst(first, Joined(tail, '/'), '/');
    assert [first] + (parts + Split(last, '/')) == [first] + parts + Split(last, '/');
  }

  /** Only the last part may hold further levels. */
  lemma {:induction false} LevelsOf(parts: seq<string>, last: string)
    requires AllFree(parts)
    ensures Split(Joined(parts + [last], '/'), '/') == parts + Split(last, '/')
    decreases |parts|
  {
    if parts == [] {
      assert parts + [last] == [last];
    } else {
      LevelsOf(parts[1..], last);
      LevelsMore(parts[0], parts[1..], last);
      assert parts == [parts[0]] + parts[1..];
    }
  }

  lemma {:induction false} FixedLevels(parts: seq<string>)
    requires AllFree(parts) && parts != []
    ensures Split(Joined(parts, '/'), '/') == parts
  {
    SplitJoined(parts, '/');
  }

  lemma {:induction false} ServiceLevels(pk: string, dn: string, service: string)
    requires Free(pk, '/') && Free(dn, '/')
    ensures Split(ServiceTopic(pk, dn, service), '/') == ["", "sys", pk, dn, "thing", "service"] + Split(service, '/')
  {
    var parts := ["", "sys", pk, dn, "thing", "service"];
    LevelsOf(parts, service);
    assert parts + [service] == ["", "sys", pk, dn, "thing", "service", service];
  }

  lemma {:induction false} ServiceOfLevels(service: string, parts: seq<string>)
    requires |parts| == 6
    ensures |parts + Split(service, '/')| >= 7 && ServiceOf(parts + Split(service, '/')) == WithoutFinalLineEnd(service)
  {
    assert (parts + Split(service, '/'))[6..] == Split(service, '/');
    JoinedSplit(service, '/');
  }

  // ---- Parsing what was built ---------------------------------------------------------------------

  /** The five shapes exclude each other on every text. */
  lemma {:induction false} ShapesDisjoint(topic: string)
    ensures var ls := Split(topic, '/');
      (if IsEvent(ls) then 1 else 0) + (if IsService(ls) then 1 else 0) + (if IsUserGet(ls) then 1 else 0)
        + (if IsOta(ls, "inform") then 1 else 0) + (if IsOta(ls, "upgrade") then 1 else 0)
        == if ParseTopic(topic).Some? then 1 else 0
  {
    assert "inform" != "upgrade" && "event" != "service";
  }

  lemma {:induction false} ParseOfService(pk: string, dn: string, service: string)
    requires Identity(pk, dn) && Carries(Service, service)
    ensures ParseTopic(ServiceTopic(pk, dn, service)) == Some(ParsedTopic(pk, dn, Service, service))
  {
    ServiceLevels(pk, dn, service);
    ServiceOfLevels(service, ["", "sys", pk, dn, "thing", "service"]);
  }

  lemma {:induction false} ParseOfOta(pk: string, dn: string, word: string)
    requires Identity(pk, dn) && Carries(Ota, word)
    ensures ParseTopic(Built(ParsedTopic(pk, dn, Ota, word))) == Some(ParsedTopic(pk, dn, Ota, word))
  {
    FixedLevels(["", "ota", "device", word, pk, dn]);
  }

  /** Parsing a built topic returns its parts. */
  lemma {:induction false} ParseOfBuilt(p: ParsedTopic)
    requires Valid(p)
    ensures ParseTopic(Built(p)) == Some(p)
  {
    var pk, dn := p.productKey, p.deviceName;
    match p.category
    case Event => FixedLevels(["", "sys", pk, dn, "thing", "event", p.detail, "post"]);
    case Service => ParseOfService(pk, dn, p.detail);
    case UserGet => FixedLevels(["", pk, dn, "user", "get"]);
    case Ota => ParseOfOta(pk, dn, p.detail);
  }

  /** An acknowledgement is not recognised. */
  lemma {:induction false} RepliesUnparsed(pk: string, dn: string, event: string)
    requires Identity(pk, dn) && Free(event, '/')
    ensures ParseTopic(EventReplyTopic(pk, dn, event)) == None
  {
    FixedLevels(["", "sys", pk, dn, "thing", "event", event, "post_reply"]);
    assert "post_reply"[4] == '_' && ("post" + "\n")[4] == '\n';
  }

  /** Building a parsed topic gives it back, but for a final line end the pattern let through. */
  lemma {:induction false} BuiltOfParse(topic: string)
    requires ParseTopic(topic).Some?
    ensures var p := ParseTopic(topic).value; Valid(p) && (topic == Built(p) || topic == Built(p) + "\n")
  {
    var ls := Split(topic, '/');
    JoinedSplit(topic, '/');
    if IsEvent(ls) {
      var front := ["", "sys", ls[2], ls[3], "thing", "event", ls[6]];
      FinalLevel(ls, front, "post");
      assert front + ["post"] == ["", "sys", ls[2], ls[3], "thing", "event", ls[6], "post"];
    } else if IsService(ls) {
      ServiceOfParse(ls);
    } else if IsUserGet(ls) {
      var front := ["", ls[1], ls[2], "user"];
      FinalLevel(ls, front, "get");
      assert front + ["get"] == ["", ls[1], ls[2], "user", "get"];
    } else {
      assert ls == ["", "ota", "device", ls[3], ls[4], ls[5]];
    }
  }

  lemma {:induction false} FinalLevel(ls: seq<string>, front: seq<string>, word: string)
    requires front != [] && |ls| == |front| + 1 && ls[..|front|] == front && EndsAs(ls[|front|], word)
    ensures Joined(ls, '/') == Joined(front + [word], '/') || Joined(ls, '/') == Joined(front + [word], '/') + "\n"
  {
    assert ls == front + [ls[|front|]];
    JoinedSnoc(front, ls[|front|]);
    JoinedSnoc(front, word);
  }

  lemma {:induction false} ServiceOfParse(ls: seq<string>)
    requires IsService(ls)
    ensures var built := ServiceTopic(ls[2], ls[3], ServiceOf(ls));
      Joined(ls, '/') == built || Joined(ls, '/') == built + "\n"
  {
    var front := ["", "sys", ls[2], ls[3], "thing", "service"];
    var tail := Joined(ls[6..], '/');
    assert ls == front + ls[6..];
    JoinedAppend(front, ls[6..]);
    JoinedSnoc(front, ServiceOf(ls));
    assert front + [ServiceOf(ls)] == ["", "sys", ls[2], ls[3], "thing", "service", ServiceOf(ls)];
    assert tail == ServiceOf(ls) || tail == ServiceOf(ls) + "\n";
  }

  lemma {:induction false} JoinedAppend(front: seq<string>, back: seq<string>)
    requires front != [] && back != []
    ensures Joined(front + back, '/') == Joined(front, '/') + "/" + Joined(back, '/')
    decreases |front|
  {
    if |front| > 1 {
      assert (front + back)[1..] == front[1..] + back;
      JoinedAppend(front[1..], back);
    } else {
      assert (front + back)[1..] == back;
    }
  }

  lemma {:induction false} ServiceLineEnd(pk: string, dn: string, service: string)
    requires Identity(pk, dn) && Carries(Service, service)
    ensures ParseTopic(ServiceTopic(pk, dn, service) + "\n") == Some(ParsedTopic(pk, dn, Service, service))
  {
    var front := ["", "sys", pk, dn, "thing", "service"];
    JoinedSnoc(front, service);
    JoinedSnoc(front, service + "\n");
    assert front + [service] == ["", "sys", pk, dn, "thing", "service", service];
    assert front + [service + "\n"] == ["", "sys", pk, dn, "thing", "service", service + "\n"];
    assert ServiceTopic(pk, dn, service) + "\n" == ServiceTopic(pk, dn, service + "\n");
    ServiceLevels(pk, dn, service + "\n");
    ServiceOfLevels(service + "\n", front);
  }

  lemma {:induction false} FixedLineEnd(front: seq<string>, last: string)
    requires front != [] && AllFree(front) && Free(last, '/')
    ensures Split(Joined(front + [last], '/') + "\n", '/') == front + [last + "\n"]
  {
    JoinedSnoc(front, last);
    JoinedSnoc(front, last + "\n");
    assert Joined(front + [last], '/') + "\n" == Joined(front + [last + "\n"], '/');
    FixedLevels(front + [last + "\n"]);
  }

  /** A line end behind a topic is let through, save by the OTA patterns, whose last level takes it in. */
  lemma {:induction false} LineEndParses(p: ParsedTopic)
    requires Valid(p) && !p.category.Ota?
    ensures ParseTopic(Built(p) + "\n") == Some(p)
  {
    var pk, dn := p.productKey, p.deviceName;
    match p.category
    case Event =>
      var front := ["", "sys", pk, dn, "thing", "event", p.detail];
      assert front + ["post"] == ["", "sys", pk, dn, "thing", "event", p.detail, "post"];
      FixedLineEnd(front, "post");
    case Service => ServiceLineEnd(pk, dn, p.detail);
    case UserGet =>
      var front := ["", pk, dn, "user"];
      assert front + ["get"] == ["", pk, dn, "user", "get"];
      FixedLineEnd(front, "get");
  }

  lemma {:induction false} OtaExactly(topic: string)
    requires ParseTopic(topic).Some? && ParseTopic(topic).value.category.Ota?
    ensures topic == Built(ParseTopic(topic).value)
  {
    var ls := Split(topic, '/');
    JoinedSplit(topic, '/');
    assert ls == ["", "ota", "device", ls[3], ls[4], ls[5]];
  }

  /** Which texts parse, and to what: exactly the built ones, and those with a line end behind. */
  lemma {:induction false} ParseExactly(topic: string, p: ParsedTopic)
    ensures ParseTopic(topic) == Some(p) <==>
      Valid(p) && (topic == Built(p) || (!p.category.Ota? && topic == Built(p) + "\n"))
  {
    if ParseTopic(topic) == Some(p) {
      BuiltOfParse(topic);
      if p.category.Ota? {
        OtaExactly(topic);
      }
    }
    if Valid(p) {
      ParseOfBuilt(p);
      if !p.category.Ota? {
        LineEndParses(p);
      }
    }
  }

  // ---- Re-addressing -----------------------------------------------------------------------------------

  /** A rewritten topic parses to the same category and detail under the new identity,
      and rewriting it back restores the topic, a dropped final line end aside. */
  lemma {:induction false} RewriteRoundTrip(topic: string, pk: string, dn: string)
    requires ParseTopic(topic).Some? && Identity(pk, dn)
    ensures var p := ParseTopic(topic).value; var there := RewriteTopic(topic, pk, dn);
      && there.Some? && ParseTopic(there.value) == Some(ParsedTopic(pk, dn, p.category, p.detail))
      && RewriteTopic(there.value, p.productKey, p.deviceName) == Some(Built(p))
      && (topic == Built(p) || topic == Built(p) + "\n")
  {
    var p := ParseTopic(topic).value;
    BuiltOfParse(topic);
    ParseOfBuilt(p.(productKey := pk, deviceName := dn));
  }

  /** What is not a device topic is never re-addressed. */
  lemma {:induction false} RewriteOnlyParsed(topic: string, pk: string, dn: string)
    ensures RewriteTopic(topic, pk, dn).None? <==> ParseTopic(topic).None?
    ensures Free(topic, '\n') && ParseTopic(topic).Some? ==>
      RewriteTopic(topic, ParseTopic(topic).value.productKey, ParseTopic(topic).value.deviceName) == Some(topic)
  {
    if ParseTopic(topic).Some? {
      BuiltOfParse(topic);
      var p := ParseTopic(topic).value;
      if topic == Built(p) + "\n" {
        assert topic[|topic| - 1] == '\n';
      }
    }
  }

  // ---- Subscriptions (section 4.7 of MQTT 3.1.1) ----------------------------------------------------------

  /** `#` stands for the rest, the parent level included; `+` for exactly one level. */
  predicate Matches(filter: seq<string>, levels: seq<string>)
    decreases |filter|
  {
    if filter == ["#"] then true
    else if filter == [] || levels == [] then filter == levels
    else (filter[0] == "+" || filter[0] == levels[0]) && Matches(filter[1..], levels[1..])
  }

  predicate Reaches(filter: string, topic: string) { Matches(Split(filter, '/'), Split(topic, '/')) }

  predicate Subscribed(pk: string, dn: string, topic: string) {
    exists i :: 0 <= i < |DownstreamFilters(pk, dn)| && Reaches(DownstreamFilters(pk, dn)[i], topic)
  }

  predicate NoWildcard(level: string) { level != "+" && level != "#" }

  lemma {:induction false} MatchesLiteral(front: seq<string>, back: seq<string>, levels: seq<string>)
    requires back != [] && forall i :: 0 <= i < |front| ==> NoWildcard(front[i])
    ensures Matches(front + back, levels) <==>
      |levels| >= |front| && levels[..|front|] == front && Matches(back, levels[|front|..])
    decreases |front|
  {
    if front == [] {
      assert front + back == back && levels[0..] == levels;
    } else {
      assert (front + back)[0] == front[0] && (front + back)[1..] == front[1..] + back;
      if levels != [] {
        MatchesLiteral(front[1..], back, levels[1..]);
        if |levels| >= |front| {
          assert levels[..|front|] == [levels[0]] + levels[1..][..|front| - 1];
          assert levels[|front|..] == levels[1..][|front| - 1..];
        }
      }
    }
  }

  /** The levels of the topics a device's filters match. */
  ghost predicate Downstream(pk: string, dn: string, ls: seq<string>) {
    || (|ls| >= 6 && ls[..6] == ["", "sys", pk, dn, "thing", "service"])
    || (|ls| == 8 && ls == ["", "sys", pk, dn, "thing", "event", ls[6], "post_reply"])
    || ls == ["", pk, dn, "user", "get"]
  }

  lemma {:induction false} ServiceFilter(pk: string, dn: string, topic: string)
    requires Identity(pk, dn) && NoWildcard(pk) && NoWildcard(dn)
    ensures var ls := Split(topic, '/');
      Reaches(ServiceTopic(pk, dn, "#"), topic) <==> |ls| >= 6 && ls[..6] == ["", "sys", pk, dn, "thing", "service"]
  {
    var front := ["", "sys", pk, dn, "thing", "service"];
    ServiceLevels(pk, dn, "#");
    SplitFree("#", '/');
    MatchesLiteral(front, ["#"], Split(topic, '/'));
  }

  lemma {:induction false} ReplyFilter(pk: string, dn: string, topic: string)
    requires Identity(pk, dn) && NoWildcard(pk) && NoWildcard(dn)
    ensures var ls := Split(topic, '/');
      Reaches(EventReplyTopic(pk, dn, "+"), topic) <==>
        |ls| == 8 && ls == ["", "sys", pk, dn, "thing", "event", ls[6], "post_reply"]
  {
    var ls := Split(topic, '/');
    var front := ["", "sys", pk, dn, "thing", "event"];
    var back := ["+", "post_reply"];
    assert front + back == ["", "sys", pk, dn, "thing", "event", "+", "post_reply"];
    FixedLevels(front + back);
    MatchesLiteral(front, back, ls);
    if |ls| >= 6 {
      OneThenWord("post_reply", ls[6..]);
      if |ls| == 8 {
        assert ls == ls[..6] + [ls[6], ls[7]];
      }
    }
  }

  lemma {:induction false} OneThenWord(word: string, ls: seq<string>)
    requires NoWildcard(word)
    ensures Matches(["+", word], ls) <==> |ls| == 2 && ls[1] == word
  {
    assert ["+", word][1..] == [word] && [word][1..] == [];
    if ls != [] {
      assert Matches([word], ls[1..]) <==> ls[1..] == [word];
    }
  }

  lemma {:induction false} LiteralFilter(front: seq<string>, last: string, ls: seq<string>)
    requires NoWildcard(last) && forall i :: 0 <= i < |front| ==> NoWildcard(front[i])
    ensures Matches(front + [last], ls) <==> ls == front + [last]
  {
    MatchesLiteral(front, [last], ls);
    if |ls| >= |front| && ls[..|front|] == front {
      assert ls == front + ls[|front|..];
      var rest := ls[|front|..];
      assert [last][1..] == [];
      assert Matches([last], rest) <==> rest == [last];
    }
  }

  /** Exactly which topics a device is subscribed to on its behalf: every topic under
      its service level (and that level itself), every acknowledgement of one of its
      events, and its own pushed configuration. */
  lemma {:induction false} SubscribedExactly(pk: string, dn: string, topic: string)
    requires Identity(pk, dn) && NoWildcard(pk) && NoWildcard(dn)
    ensures Subscribed(pk, dn, topic) <==> Downstream(pk, dn, Split(topic, '/'))
  {
    var filters := DownstreamFilters(pk, dn);
    ServiceFilter(pk, dn, topic);
    ReplyFilter(pk, dn, topic);
    var front := ["", pk, dn, "user"];
    assert front + ["get"] == ["", pk, dn, "user", "get"];
    FixedLevels(front + ["get"]);
    LiteralFilter(front, "get", Split(topic, '/'));
    assert Subscribed(pk, dn, topic) <==>
      Reaches(filters[0], topic) || Reaches(filters[1], topic) || Reaches(filters[2], topic);
  }

  /** The six kinds of topic the program knows. */
  datatype Kind = Post | Reply | Command | Push | Inform | Upgrade

  function TopicOf(kind: Kind, pk: string, dn: string, detail: string): string {
    match kind
    case Post => EventPostTopic(pk, dn, detail)
    case Reply => EventReplyTopic(pk, dn, detail)
    case Command => ServiceTopic(pk, dn, detail)
    case Push => UserGetTopic(pk, dn)
    case Inform => OtaInformTopic(pk, dn)
    case Upgrade => OtaUpgradeTopic(pk, dn)
  }

  lemma {:induction false} TopicLevels(kind: Kind, pk: string, dn: string, detail: string)
    requires Identity(pk, dn) && (kind.Post? || kind.Reply? ==> Free(detail, '/'))
    ensures Split(TopicOf(kind, pk, dn, detail), '/') ==
      match kind
      case Post => ["", "sys", pk, dn, "thing", "event", detail, "post"]
      case Reply => ["", "sys", pk, dn, "thing", "event", detail, "post_reply"]
      case Command => ["", "sys", pk, dn, "thing", "service"] + Split(detail, '/')
      case Push => ["", pk, dn, "user", "get"]
      case Inform => ["", "ota", "device", "inform", pk, dn]
      case Upgrade => ["", "ota", "device", "upgrade", pk, dn]
  {
    match kind
    case Post => FixedLevels(["", "sys", pk, dn, "thing", "event", detail, "post"]);
    case Reply => FixedLevels(["", "sys", pk, dn, "thing", "event", detail, "post_reply"]);
    case Command => ServiceLevels(pk, dn, detail);
    case Push => FixedLevels(["", pk, dn, "user", "get"]);
    case Inform => FixedLevels(["", "ota", "device", "inform", pk, dn]);
    case Upgrade => FixedLevels(["", "ota", "device", "upgrade", pk, dn]);
  }

  /** The filters reach every command, event acknowledgement and configuration push of
      their own device, none of another device, and neither a post nor any OTA topic. */
  lemma {:induction false} FiltersReachOwnDownstream(pk: string, dn: string, kind: Kind, toPk: string, toDn: string, detail: string)
    requires Identity(pk, dn) && NoWildcard(pk) && NoWildcard(dn)
    requires Identity(toPk, toDn) && (kind.Post? || kind.Reply? ==> Free(detail, '/'))
    ensures Subscribed(pk, dn, TopicOf(kind, toPk, toDn, detail)) <==>
      pk == toPk && dn == toDn && (kind.Reply? || kind.Command? || kind.Push?)
  {
    var topic := TopicOf(kind, toPk, toDn, detail);
    SubscribedExactly(pk, dn, topic);
    TopicLevels(kind, toPk, toDn, detail);
    DownstreamKind(pk, dn, kind, toPk, toDn, detail, Split(topic, '/'));
  }

  lemma {:induction false} DownstreamKind(pk: string, dn: string, kind: Kind, toPk: string, toDn: string, detail: string, ls: seq<string>)
    requires Identity(toPk, toDn) && ls ==
      match kind
      case Post => ["", "sys", toPk, toDn, "thing", "event", detail, "post"]
      case Reply => ["", "sys", toPk, toDn, "thing", "event", detail, "post_reply"]
      case Command => ["", "sys", toPk, toDn, "thing", "service"] + Split(detail, '/')
      case Push => ["", toPk, toDn, "user", "get"]
      case Inform => ["", "ota", "device", "inform", toPk, toDn]
      case Upgrade => ["", "ota", "device", "upgrade", toPk, toDn]
    ensures Downstream(pk, dn, ls) <==> pk == toPk && dn == toDn && (kind.Reply? || kind.Command? || kind.Push?)
  {
    assert |ls| >= 6 ==> ls[..6] == [ls[0], ls[1], ls[2], ls[3], ls[4], ls[5]];
    match kind
    case Post => assert ls[7] == "post" && "post" != "post_reply";
    case Reply =>
      assert ls[2] == toPk && ls[3] == toDn && ls[5] == "event" && "event" != "service";
    case Command =>
      assert ls[2] == toPk && ls[3] == toDn && ls[5] == "service";
    case Push => assert ls[1] == toPk && ls[2] == toDn;
    case Inform =>
      assert ls[1] == "ota" && "ota" != "sys";
    case Upgrade =>
      assert ls[1] == "ota" && "ota" != "sys";
  }

  /** Of what reaches a device, the parser recognises nothing but our own commands and
      pushes, and the device's own acknowledgements of commands. */
  lemma {:induction false} DownstreamIsOurs(pk: string, dn: string, topic: string)
    requires Identity(pk, dn) && NoWildcard(pk) && NoWildcard(dn) && Subscribed(pk, dn, topic)
    requires ParseTopic(topic).Some?
    ensures var p := ParseTopic(topic).value;
      p.productKey == pk && p.deviceName == dn && (IsServerPublished(p) <==> !EndsWith(p.detail, "_reply"))
  {
    SubscribedExactly(pk, dn, topic);
    assert "post_reply"[4] == '_' && ("post" + "\n")[4] == '\n';
  }

  /** Which of the program's topics count as published by the server: commands that are
      not acknowledgements, pushes and upgrades. */
  lemma {:induction false} PublishedKinds(kind: Kind, pk: string, dn: string, detail: string)
    requires Identity(pk, dn) && !kind.Reply?
    requires (kind.Post? ==> Carries(Event, detail)) && (kind.Command? ==> Carries(Service, detail))
    ensures ParseTopic(TopicOf(kind, pk, dn, detail)).Some?
    ensures IsServerPublished(ParseTopic(TopicOf(kind, pk, dn, detail)).value) <==>
      (kind.Command? && !EndsWith(detail, "_reply")) || kind.Push? || kind.Upgrade?
  {
    match kind
    case Post => ParseOfBuilt(ParsedTopic(pk, dn, Event, detail));
    case Command => ParseOfBuilt(ParsedTopic(pk, dn, Service, detail));
    case Push => ParseOfBuilt(ParsedTopic(pk, dn, UserGet, "get"));
    case Inform => ParseOfBuilt(ParsedTopic(pk, dn, Ota, "inform"));
    case Upgrade => ParseOfBuilt(ParsedTopic(pk, dn, Ota, "upgrade"));
  }
}

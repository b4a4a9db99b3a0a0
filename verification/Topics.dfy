/** MQTT topics: the parser of incoming topics and the printer of command topics. */
module Topics {
  import opened Domain
  import opened Spelling

  predicate SlashFree(s: string) { forall i :: 0 <= i < |s| ==> s[i] != '/' }

  /** Split at every '/', as many pieces as slashes plus one. */
  function Split(s: string): (parts: seq<string>)
    ensures |parts| > 0
  {
    if s == "" then [""]
    else
      var rest := Split(s[1..]);
      if s[0] == '/' then [""] + rest else [[s[0]] + rest[0]] + rest[1..]
  }

  function Join(parts: seq<string>): string
    requires |parts| > 0
  {
    if |parts| == 1 then parts[0] else parts[0] + "/" + Join(parts[1..])
  }

  predicate IsSafeIdentifier(s: string) { MatchesIdentifier(s) && |s| <= 128 }

  function ParseTopic(topic: string): Option<(string, string, string)> {
    var parts := Split(topic);
    if |parts| != 3 then None
    else if !IsSafeIdentifier(parts[0]) || !IsSafeIdentifier(parts[1]) then None
    else Some((parts[0], parts[1], parts[2]))
  }

  function PrintTopic(deviceType: string, id: Id, kind: string): string { deviceType + "/" + id + "/" + kind }

  lemma {:induction false} SplitJoin(s: string)
    ensures Join(Split(s)) == s && forall i :: 0 <= i < |Split(s)| ==> SlashFree(Split(s)[i])
  {
    if s != "" {
      SplitJoin(s[1..]);
      var rest := Split(s[1..]);
      if s[0] == '/' {
        assert Split(s)[1..] == rest;
      } else {
        assert Split(s)[1..] == rest[1..];
        assert [s[0]] + s[1..] == s;
        if |rest| > 1 {
          assert ([s[0]] + rest[0]) + "/" + Join(rest[1..]) == [s[0]] + (rest[0] + "/" + Join(rest[1..]));
        }
      }
    }
  }

  lemma {:induction false} SplitPlain(s: string)
    requires SlashFree(s)
    ensures Split(s) == [s]
  {
    if s != "" {
      SplitPlain(s[1..]);
      assert [s[0]] + s[1..] == s;
    }
  }

  lemma {:induction false} SplitFirst(a: string, rest: string)
    requires SlashFree(a)
    ensures Split(a + "/" + rest) == [a] + Split(rest)
  {
    var s := a + "/" + rest;
    if a == "" {
      assert s[1..] == rest;
    } else {
      assert s[1..] == a[1..] + "/" + rest;
      SplitFirst(a[1..], rest);
      assert [s[0]] + a[1..] == a;
    }
  }

  lemma IdentifierSlashFree(s: string)
    requires MatchesIdentifier(s)
    ensures SlashFree(s)
  {
  }

  /** Parsing what was printed from safe identifiers and a slash-free message kind gives them back. */
  lemma ParsePrinted(deviceType: string, id: Id, kind: string)
    requires IsSafeIdentifier(deviceType) && IsSafeIdentifier(id) && SlashFree(kind)
    ensures ParseTopic(PrintTopic(deviceType, id, kind)) == Some((deviceType, id, kind))
  {
    IdentifierSlashFree(deviceType);
    IdentifierSlashFree(id);
    assert PrintTopic(deviceType, id, kind) == deviceType + "/" + (id + "/" + kind);
    SplitFirst(deviceType, id + "/" + kind);
    SplitFirst(id, kind);
    SplitPlain(kind);
  }

  /** An accepted topic prints back to itself. */
  lemma PrintParsed(topic: string)
    requires ParseTopic(topic).Some?
    ensures var (deviceType, id, kind) := ParseTopic(topic).value;
            && PrintTopic(deviceType, id, kind) == topic
            && IsSafeIdentifier(deviceType) && IsSafeIdentifier(id) && SlashFree(kind)
  {
    var parts := Split(topic);
    SplitJoin(topic);
    assert parts == [parts[0], parts[1], parts[2]];
    assert Join(parts[1..]) == parts[1] + "/" + parts[2];
    assert parts[0] + "/" + (parts[1] + "/" + parts[2]) == PrintTopic(parts[0], parts[1], parts[2]);
  }

  /** A topic is accepted, and read as these three parts, exactly when it is these parts with slashes between them, the
      first two safe names of at most 128 characters and the third any text without a slash. */
  lemma AcceptedExactly(topic: string, deviceType: string, id: Id, kind: string)
    ensures ParseTopic(topic) == Some((deviceType, id, kind)) <==>
              && topic == deviceType + "/" + id + "/" + kind
              && |deviceType| <= 128 && Spelled(deviceType) && |id| <= 128 && Spelled(id)
              && forall i :: 0 <= i < |kind| ==> kind[i] != '/'
  {
    hide ParseTopic, MatchesIdentifier, Spelled;
    SpelledIs(deviceType);
    SpelledIs(id);
    if ParseTopic(topic) == Some((deviceType, id, kind)) { PrintParsed(topic); }
    if topic == deviceType + "/" + id + "/" + kind && IsSafeIdentifier(deviceType) && IsSafeIdentifier(id) &&
       SlashFree(kind)
    {
      ParsePrinted(deviceType, id, kind);
    }
  }

  /** Two devices never share a command topic. */
  lemma CommandTopicsDiffer(type1: string, id1: Id, type2: string, id2: Id)
    requires IsSafeIdentifier(type1) && IsSafeIdentifier(id1) && IsSafeIdentifier(type2) && IsSafeIdentifier(id2)
    requires PrintTopic(type1, id1, "command") == PrintTopic(type2, id2, "command")
    ensures type1 == type2 && id1 == id2
  {
    ParsePrinted(type1, id1, "command");
    ParsePrinted(type2, id2, "command");
  }
}

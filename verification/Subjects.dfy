/** Subjects: "."-separated parts, patterns with wild cards, and the subjects of requests and
    replies. */
module Subjects {
  import opened Sequences

  type Subject = string

  const WILDCARD: string := "*"
  const REQUEST_PREFIX: string := "_request"
  const REPLY_PREFIX: string := "_reply"
  const UNIQUE_ID_LENGTH: nat := 32

  /** `s.split(".")`. */
  function Split(s: string): (parts: seq<string>)
    ensures parts != []
  {
    if s == "" then [""]
    else
      var rest := Split(s[1..]);
      if s[0] == '.' then [""] + rest
      else [[s[0]] + rest[0]] + rest[1..]
  }

  /** `".".join(parts)`. */
  function Join(parts: seq<string>): string
    requires parts != []
  {
    if |parts| == 1 then parts[0] else parts[0] + "." + Join(parts[1..])
  }

  predicate HasWildcard(subject: Subject) {
    WILDCARD in Split(subject)
  }

  /** `StringPatternMatcher.match`. */
  predicate Match(given: Subject, target: Subject) {
    var g, t := Split(given), Split(target);
    |g| == |t| && forall i :: 0 <= i < |g| ==> t[i] == WILDCARD || g[i] == t[i]
  }

  // --- splitting and joining are inverse ------------------------------------------

  lemma {:induction false} JoinSplit(s: string)
    ensures Join(Split(s)) == s
  {
    if s != "" {
      var rest := Split(s[1..]);
      JoinSplit(s[1..]);
      if s[0] == '.' {
        assert ([""] + rest)[1..] == rest;
      } else {
        var parts := [[s[0]] + rest[0]] + rest[1..];
        assert parts[1..] == rest[1..];
      }
    }
  }

  lemma {:induction false} SplitPart(p: string)
    requires '.' !in p
    ensures Split(p) == [p]
  {
    if p != "" {
      SplitPart(p[1..]);
      assert p == [p[0]] + p[1..];
    }
  }

  lemma SplitDot(t: string)
    ensures Split("." + t) == [""] + Split(t)
  {
    assert ("." + t)[1..] == t;
  }

  lemma SplitChar(c: char, t: string)
    requires c != '.'
    ensures Split([c] + t) == [[c] + Split(t)[0]] + Split(t)[1..]
  {
    assert ([c] + t)[1..] == t;
  }

  lemma FirstGrown(parts: seq<string>, more: seq<string>, c: char)
    requires parts != []
    ensures [[c] + (parts + more)[0]] + (parts + more)[1..] == ([[c] + parts[0]] + parts[1..]) + more
  {
  }

  lemma DotStep(a: string, b: string)
    requires Split(a + ("." + b)) == Split(a) + Split(b)
    ensures Split("." + a + ("." + b)) == Split("." + a) + Split(b)
  {
    SplitDot(a);
    SplitDot(a + ("." + b));
    Regroup(".", a, "." + b);
    Regroup([""], Split(a), Split(b));
  }

  lemma CharStep(c: char, a: string, b: string)
    requires c != '.' && Split(a + ("." + b)) == Split(a) + Split(b)
    ensures Split([c] + a + ("." + b)) == Split([c] + a) + Split(b)
  {
    SplitChar(c, a);
    SplitChar(c, a + ("." + b));
    Regroup([c], a, "." + b);
    FirstGrown(Split(a), Split(b), c);
  }

  lemma {:induction false} SplitOnto(a: string, b: string)
    ensures Split(a + ("." + b)) == Split(a) + Split(b)
  {
    if a == "" {
      SplitDot(b);
      assert a + ("." + b) == "." + b;
    } else {
      SplitOnto(a[1..], b);
      assert a == [a[0]] + a[1..];
      if a[0] == '.' {
        DotStep(a[1..], b);
      } else {
        CharStep(a[0], a[1..], b);
      }
    }
  }

  /** Joining two subjects with "." appends their parts. */
  lemma SplitDotted(a: string, b: string)
    ensures Split(a + "." + b) == Split(a) + Split(b)
  {
    Regroup(a, ".", b);
    SplitOnto(a, b);
  }

  lemma {:induction false} SplitJoin(parts: seq<string>)
    requires parts != [] && forall i :: 0 <= i < |parts| ==> '.' !in parts[i]
    ensures Split(Join(parts)) == parts
  {
    SplitPart(parts[0]);
    if |parts| > 1 {
      SplitJoin(parts[1..]);
      SplitDotted(parts[0], Join(parts[1..]));
    }
  }

  // --- matching ---------------------------------------------------------------------

  /** A subject without wild cards matches itself and nothing else. */
  lemma LiteralMatchesOnlyItself(given: Subject, target: Subject)
    requires !HasWildcard(target)
    ensures Match(given, target) <==> given == target
  {
    if Match(given, target) {
      var g, t := Split(given), Split(target);
      assert forall i :: 0 <= i < |t| ==> t[i] in t;
      assert g == t;
      JoinSplit(given);
      JoinSplit(target);
    }
  }

  /** A pattern matches exactly the subjects made by filling its wild cards with parts. */
  lemma MatchesByFilling(given: Subject, target: Subject)
    ensures Match(given, target) <==>
            exists parts: seq<string> ::
              && |parts| == |Split(target)| && given == Join(parts)
              && (forall i :: 0 <= i < |parts| ==> '.' !in parts[i])
              && (forall i :: 0 <= i < |parts| ==> Split(target)[i] == WILDCARD || parts[i] == Split(target)[i])
  {
    if Match(given, target) {
      JoinSplit(given);
      PartsAreDotless(given);
    }
    if parts: seq<string> :|
      && |parts| == |Split(target)| && given == Join(parts)
      && (forall i :: 0 <= i < |parts| ==> '.' !in parts[i])
      && (forall i :: 0 <= i < |parts| ==> Split(target)[i] == WILDCARD || parts[i] == Split(target)[i])
    {
      SplitJoin(parts);
    }
  }

  lemma {:induction false} PartsAreDotless(s: string)
    ensures forall i :: 0 <= i < |Split(s)| ==> '.' !in Split(s)[i]
  {
    if s != "" {
      PartsAreDotless(s[1..]);
    }
  }

  // --- requests and replies -----------------------------------------------------------

  predicate IsIdCharacter(c: char) {
    '0' <= c <= '9' || 'A' <= c <= 'Z' || 'a' <= c <= 'z'
  }

  predicate IsUniqueId(value: string) {
    |value| == UNIQUE_ID_LENGTH && forall i :: 0 <= i < |value| ==> IsIdCharacter(value[i])
  }

  function DerivedRequestSubject(request: Subject): Subject {
    REQUEST_PREFIX + "." + request
  }

  function DerivedReplySubject(request: Subject, id: string): Subject {
    REPLY_PREFIX + "." + request + "." + id
  }

  predicate IsValidReplySubject(subject: Subject) {
    var parts := Split(subject);
    && |parts| >= 3
    && parts[0] == REPLY_PREFIX
    && IsUniqueId(parts[|parts| - 1])
    && !HasWildcard(subject)
  }

  predicate IsReplySubjectFor(reply: Subject, request: Subject) {
    var prefix := REPLY_PREFIX + "." + request + ".";
    && IsValidReplySubject(reply)
    && prefix <= reply
    && IsUniqueId(reply[|prefix|..])
  }

  lemma UniqueIdIsOnePart(id: string)
    requires IsUniqueId(id)
    ensures Split(id) == [id] && id != WILDCARD
  {
    SplitPart(id);
  }

  lemma DerivedReplyParts(request: Subject, id: string)
    requires IsUniqueId(id)
    ensures Split(DerivedReplySubject(request, id)) == [REPLY_PREFIX] + Split(request) + [id]
    ensures HasWildcard(DerivedReplySubject(request, id)) <==> HasWildcard(request)
  {
    UniqueIdIsOnePart(id);
    SplitPart(REPLY_PREFIX);
    SplitDotted(REPLY_PREFIX, request);
    SplitDotted(REPLY_PREFIX + "." + request, id);
    var parts := Split(request);
    assert forall p :: p in [REPLY_PREFIX] + parts + [id] <==> p == REPLY_PREFIX || p in parts || p == id;
  }

  /** An acceptor of one request subject, which has no wild card, gets the requests sent to that
      subject only. */
  lemma RequestsAreNotMixed(sent: Subject, accepted: Subject)
    requires !HasWildcard(accepted)
    ensures Match(DerivedRequestSubject(sent), DerivedRequestSubject(accepted)) <==> sent == accepted
  {
    SplitPart(REQUEST_PREFIX);
    SplitDotted(REQUEST_PREFIX, accepted);
    var parts := Split(accepted);
    assert forall p :: p in [REQUEST_PREFIX] + parts <==> p == REQUEST_PREFIX || p in parts;
    LiteralMatchesOnlyItself(DerivedRequestSubject(sent), DerivedRequestSubject(accepted));
    var k := |REQUEST_PREFIX| + 1;
    assert DerivedRequestSubject(sent)[k..] == sent && DerivedRequestSubject(accepted)[k..] == accepted;
  }

  /** A reply subject belongs to a request subject exactly when the request subject has no
      wild card and the reply subject is derived from it with some unique id. */
  lemma ReplySubjectIff(reply: Subject, request: Subject)
    ensures IsReplySubjectFor(reply, request) <==>
            !HasWildcard(request) && exists id :: IsUniqueId(id) && reply == DerivedReplySubject(request, id)
  {
    var prefix := REPLY_PREFIX + "." + request + ".";
    if IsReplySubjectFor(reply, request) {
      var id := reply[|prefix|..];
      assert reply == prefix + id == DerivedReplySubject(request, id);
      DerivedReplyParts(request, id);
    }
    if !HasWildcard(request) {
      forall id | IsUniqueId(id) && reply == DerivedReplySubject(request, id)
        ensures IsReplySubjectFor(reply, request)
      {
        DerivedReplyParts(request, id);
        assert reply == prefix + id;
        assert reply[|prefix|..] == id;
      }
    }
  }

  /** The reply subjects that may be replied to are those of some request subject. */
  lemma ValidReplySubjectIff(reply: Subject)
    ensures IsValidReplySubject(reply) <==>
            exists request, id :: !HasWildcard(request) && IsUniqueId(id) && reply == DerivedReplySubject(request, id)
  {
    if IsValidReplySubject(reply) {
      var parts := Split(reply);
      var middle, id := parts[1..|parts| - 1], parts[|parts| - 1];
      PartsAreDotless(reply);
      SplitJoin(middle);
      DerivedReplyParts(Join(middle), id);
      assert parts == [REPLY_PREFIX] + middle + [id];
      JoinSplit(reply);
      JoinSplit(DerivedReplySubject(Join(middle), id));
      assert !HasWildcard(Join(middle));
    }
    forall request, id | !HasWildcard(request) && IsUniqueId(id) && reply == DerivedReplySubject(request, id)
      ensures IsValidReplySubject(reply)
    {
      DerivedReplyParts(request, id);
    }
  }

  /** The names of the derived subjects, and the form of unique IDs. */
  lemma DerivedSubjectsAre(request: Subject, id: string)
    ensures DerivedRequestSubject(request) == "_request." + request
    ensures DerivedReplySubject(request, id) == "_reply." + request + "." + id
    ensures IsUniqueId(id) <==>
            |id| == 32 && forall i :: 0 <= i < 32 ==> '0' <= id[i] <= '9' || 'A' <= id[i] <= 'Z' || 'a' <= id[i] <= 'z'
    ensures HasWildcard(request) <==> "*" in Split(request)
  {
  }

  /** Each reply subject belongs to at most one request subject. */
  lemma ReplySubjectBelongsToOne(reply: Subject, r1: Subject, r2: Subject)
    requires IsReplySubjectFor(reply, r1) && IsReplySubjectFor(reply, r2)
    ensures r1 == r2
  {
    var p1, p2 := REPLY_PREFIX + "." + r1 + ".", REPLY_PREFIX + "." + r2 + ".";
    assert |p1| == |p2| == |reply| - UNIQUE_ID_LENGTH;
    assert p1 == reply[..|p1|] == p2;
    var k := |REPLY_PREFIX| + 1;
    assert r1 == p1[k..|p1| - 1] && r2 == p2[k..|p2| - 1];
  }

  /** Subscribing to a request's reply subject receives that request's replies only. */
  lemma RepliesAreNotMixed(request: Subject, id: string, published: Subject)
    requires !HasWildcard(request) && IsUniqueId(id)
    ensures Match(published, DerivedReplySubject(request, id)) <==> published == DerivedReplySubject(request, id)
  {
    DerivedReplyParts(request, id);
    LiteralMatchesOnlyItself(published, DerivedReplySubject(request, id));
  }
}

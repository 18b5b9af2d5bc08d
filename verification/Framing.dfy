/**
 The wire format: every message is a four-byte big-endian length followed by that many bytes. The broker
 refuses lengths above ten megabytes; the clients accept any length.
 */
module Framing {
  import opened Tasks

  type Byte = b: int | 0 <= b < 256
  type Message = seq<Byte>

  const PREFIX := 4
  const LENGTHS := 0x1_0000_0000
  const BROKER_LIMIT := 10 * 1024 * 1024
  const ANY_LENGTH := LENGTHS - 1

  function Prefix(n: nat): (p: seq<Byte>)
    requires n < LENGTHS
    ensures |p| == PREFIX
  {
    [n / 0x100_0000, n / 0x1_0000 % 256, n / 0x100 % 256, n % 256]
  }

  function Length(p: seq<Byte>): (n: nat)
    requires |p| == PREFIX
    ensures n < LENGTHS
  {
    var a: int, b: int, c: int := p[0], p[1], p[2];
    a * 0x100_0000 + b * 0x1_0000 + c * 0x100 + p[3]
  }

  /** Prefixes and lengths below 2^32 correspond one to one. */
  lemma PrefixRoundTrip(n: nat)
    requires n < LENGTHS
    ensures Length(Prefix(n)) == n
  {
    var a, b, c := n / 0x100, n / 0x1_0000, n / 0x100_0000;
    assert b == a / 256 && c == b / 256;
  }

  lemma LengthRoundTrip(p: seq<Byte>)
    requires |p| == PREFIX
    ensures Prefix(Length(p)) == p
  {
    var n, a: int, b: int := Length(p), p[0], p[1];
    assert n / 0x100 == a * 0x1_0000 + b * 0x100 + p[2];
    assert n / 0x1_0000 == a * 0x100 + b;
    assert n / 0x100_0000 == a;
  }

  /** The number whose base-256 digits these are, most significant first. */
  function Digits(p: seq<Byte>): nat {
    if p == [] then 0
    else
      var last: int := p[|p| - 1];
      256 * Digits(p[..|p| - 1]) + last
  }

  /** The length is sent most significant byte first. */
  lemma BigEndian(p: seq<Byte>)
    requires |p| == PREFIX
    ensures Length(p) == Digits(p)
    ensures Length([0, 0, 1, 2]) == 258 && Length([1, 0, 0, 0]) == 16777216
  {
    assert p[..3][..2] == p[..2] && p[..2][..1] == p[..1] && p[..1][..0] == [];
    var a: int, b: int, c: int, d: int := p[0], p[1], p[2], p[3];
    assert Digits(p[..1]) == a;
    assert Digits(p[..2]) == 256 * a + b;
    assert Digits(p[..3]) == 256 * (256 * a + b) + c;
    assert Digits(p) == 256 * (256 * (256 * a + b) + c) + d;
  }

  function Frame(m: Message): (f: seq<Byte>)
    requires |m| < LENGTHS
    ensures |f| == PREFIX + |m|
  {
    Prefix(|m|) + m
  }

  predicate Sendable(ms: seq<Message>, limit: nat) {
    forall i :: 0 <= i < |ms| ==> |ms[i]| <= limit
  }

  function Stream(ms: seq<Message>): seq<Byte>
    requires Sendable(ms, ANY_LENGTH)
  {
    if ms == [] then [] else Frame(ms[0]) + Stream(ms[1..])
  }

  // --------------------------------------------------------------------- reading

  /** Reading stops at the end of the stream, with the bytes of an unfinished frame, or at an oversized length. */
  datatype Stop = Ended(rest: seq<Byte>) | TooLarge

  datatype Reading = Reading(messages: seq<Message>, stop: Stop)

  predicate Oversized(limit: nat, s: seq<Byte>) {
    |s| >= PREFIX && Length(s[..PREFIX]) > limit
  }

  predicate Complete(limit: nat, s: seq<Byte>) {
    |s| >= PREFIX && Length(s[..PREFIX]) <= limit && |s| >= PREFIX + Length(s[..PREFIX])
  }

  function First(limit: nat, s: seq<Byte>): Message
    requires Complete(limit, s)
  {
    s[PREFIX..PREFIX + Length(s[..PREFIX])]
  }

  function Rest(limit: nat, s: seq<Byte>): (r: seq<Byte>)
    requires Complete(limit, s)
    ensures |r| < |s|
  {
    s[PREFIX + Length(s[..PREFIX])..]
  }

  function Read(limit: nat, s: seq<Byte>): (r: Reading)
    decreases |s|
  {
    if Oversized(limit, s) then Reading([], TooLarge)
    else if !Complete(limit, s) then Reading([], Ended(s))
    else
      var r := Read(limit, Rest(limit, s));
      Reading([First(limit, s)] + r.messages, r.stop)
  }

  lemma FrameFirst(limit: nat, m: Message, tail: seq<Byte>)
    requires |m| <= limit <= ANY_LENGTH
    ensures Complete(limit, Frame(m) + tail)
    ensures First(limit, Frame(m) + tail) == m && Rest(limit, Frame(m) + tail) == tail
  {
    PrefixRoundTrip(|m|);
    assert (Frame(m) + tail)[..PREFIX] == Prefix(|m|);
  }

  lemma FirstFrame(limit: nat, s: seq<Byte>)
    requires Complete(limit, s)
    ensures |First(limit, s)| <= limit && |First(limit, s)| < LENGTHS
    ensures s == Frame(First(limit, s)) + Rest(limit, s)
  {
    LengthRoundTrip(s[..PREFIX]);
  }

  lemma ReadFrame(limit: nat, m: Message, tail: seq<Byte>)
    requires |m| <= limit <= ANY_LENGTH
    ensures var r := Read(limit, tail); Read(limit, Frame(m) + tail) == Reading([m] + r.messages, r.stop)
  {
    FrameFirst(limit, m, tail);
  }

  /** What was framed is read back, and whatever follows is read after it. */
  lemma {:induction false} StreamRoundTrip(limit: nat, ms: seq<Message>, tail: seq<Byte>)
    requires limit <= ANY_LENGTH && Sendable(ms, limit)
    ensures Read(limit, Stream(ms) + tail)
      == Reading(ms + Read(limit, tail).messages, Read(limit, tail).stop)
  {
    if ms == [] {
      assert Stream(ms) + tail == tail;
    } else {
      StreamRoundTrip(limit, ms[1..], tail);
      var t := Stream(ms[1..]);
      Regroup(Frame(ms[0]), t, tail);
      ReadFrame(limit, ms[0], t + tail);
      Regroup([ms[0]], ms[1..], Read(limit, tail).messages);
      assert [ms[0]] + ms[1..] == ms;
    }
  }

  predicate Faithful(limit: nat, s: seq<Byte>, r: Reading) {
    Sendable(r.messages, limit) && Sendable(r.messages, ANY_LENGTH) &&
    Stream(r.messages) <= s &&
    var tail := s[|Stream(r.messages)|..];
    if r.stop.TooLarge? then Oversized(limit, tail)
    else r.stop.rest == tail && !Oversized(limit, tail) && !Complete(limit, tail)
  }

  /** Conversely every stream is its messages framed again, then an oversized or unfinished frame. */
  lemma {:induction false} ReadIsFaithful(limit: nat, s: seq<Byte>)
    ensures Faithful(limit, s, Read(limit, s))
    decreases |s|
  {
    var r := Read(limit, s);
    if Complete(limit, s) {
      var s' := Rest(limit, s);
      var r' := Read(limit, s');
      ReadIsFaithful(limit, s');
      FirstFrame(limit, s);
      assert r.messages[1..] == r'.messages;
      assert Stream(r.messages) == Frame(First(limit, s)) + Stream(r'.messages);
      assert s[|Stream(r.messages)|..] == s'[|Stream(r'.messages)|..];
    } else {
      assert Stream([]) == [] && s[0..] == s;
    }
  }

  // -------------------------------------------------------------------- chunking

  /** A reader that is handed the stream piece by piece, as the network delivers it. */
  function Feed(limit: nat, r: Reading, chunk: seq<Byte>): Reading {
    if r.stop.TooLarge? then r
    else
      var more := Read(limit, r.stop.rest + chunk);
      Reading(r.messages + more.messages, more.stop)
  }

  function FeedAll(limit: nat, r: Reading, chunks: seq<seq<Byte>>): Reading
    decreases |chunks|
  {
    if chunks == [] then r else FeedAll(limit, Feed(limit, r, chunks[0]), chunks[1..])
  }

  function Concat(chunks: seq<seq<Byte>>): seq<Byte> {
    if chunks == [] then [] else chunks[0] + Concat(chunks[1..])
  }

  lemma MoreBytes(limit: nat, s: seq<Byte>, t: seq<Byte>)
    requires |s| >= PREFIX
    ensures Oversized(limit, s) ==> Oversized(limit, s + t)
    ensures Complete(limit, s) ==>
      Complete(limit, s + t) && First(limit, s + t) == First(limit, s) && Rest(limit, s + t) == Rest(limit, s) + t
  {
    assert (s + t)[..PREFIX] == s[..PREFIX];
  }

  lemma {:induction false} ReadAppend(limit: nat, s: seq<Byte>, t: seq<Byte>)
    ensures Read(limit, s + t) == Feed(limit, Read(limit, s), t)
    decreases |s|
  {
    if |s| >= PREFIX {
      MoreBytes(limit, s, t);
    }
    if Complete(limit, s) {
      ReadAppend(limit, Rest(limit, s), t);
      FeedBehind(limit, First(limit, s), Read(limit, Rest(limit, s)), t);
    }
  }

  // A message already read stays in front.
  lemma FeedBehind(limit: nat, m: Message, r: Reading, t: seq<Byte>)
    ensures var r' := Feed(limit, r, t);
      Feed(limit, Reading([m] + r.messages, r.stop), t) == Reading([m] + r'.messages, r'.stop)
  {
    if r.stop.Ended? {
      Regroup([m], r.messages, Read(limit, r.stop.rest + t).messages);
    }
  }

  lemma {:induction false} FeedAllReads(limit: nat, s: seq<Byte>, chunks: seq<seq<Byte>>)
    ensures FeedAll(limit, Read(limit, s), chunks) == Read(limit, s + Concat(chunks))
    decreases |chunks|
  {
    if chunks == [] {
      assert s + Concat(chunks) == s;
    } else {
      ReadAppend(limit, s, chunks[0]);
      FeedAllReads(limit, s + chunks[0], chunks[1..]);
      assert s + chunks[0] + Concat(chunks[1..]) == s + Concat(chunks);
    }
  }

  /** However the network cuts the stream, the same messages are read and reading stops for the same reason. */
  lemma ChunkingIsInvisible(limit: nat, ms: seq<Message>, chunks: seq<seq<Byte>>)
    requires limit <= ANY_LENGTH && Sendable(ms, limit) && Concat(chunks) == Stream(ms)
    ensures FeedAll(limit, Read(limit, []), chunks) == Reading(ms, Ended([]))
  {
    FeedAllReads(limit, [], chunks);
    assert [] + Concat(chunks) == Stream(ms) + [];
    StreamRoundTrip(limit, ms, []);
    assert ms + [] == ms;
  }

  // ------------------------------------------------------------------ truncation

  lemma {:induction false} StreamPrefix(ms: seq<Message>, n: nat)
    requires Sendable(ms, ANY_LENGTH) && n <= |ms|
    ensures Stream(ms) == Stream(ms[..n]) + Stream(ms[n..])
  {
    if n == 0 {
      assert ms[0..] == ms;
    } else {
      StreamPrefix(ms[1..], n - 1);
      assert ms[..n][0] == ms[0] && ms[..n][1..] == ms[1..][..n - 1] && ms[1..][n - 1..] == ms[n..];
    }
  }

  lemma NoneFromPart(limit: nat, m: Message, part: seq<Byte>)
    requires |m| <= limit <= ANY_LENGTH && part < Frame(m)
    ensures Read(limit, part) == Reading([], Ended(part))
  {
    if |part| >= PREFIX {
      PrefixRoundTrip(|m|);
      assert part[..PREFIX] == Prefix(|m|);
    }
  }

  /**
   A connection cut inside message `n` has delivered exactly the first n messages: nothing is invented and
   no message is delivered in part.
   */
  lemma CutDeliversWholeMessages(limit: nat, ms: seq<Message>, n: nat, part: seq<Byte>)
    requires limit <= ANY_LENGTH && Sendable(ms, limit) && n < |ms| && part < Frame(ms[n])
    ensures Stream(ms[..n]) + part <= Stream(ms)
    ensures Read(limit, Stream(ms[..n]) + part) == Reading(ms[..n], Ended(part))
  {
    StreamPrefix(ms, n);
    StreamRoundTrip(limit, ms[..n], part);
    NoneFromPart(limit, ms[n], part);
    assert ms[..n] + [] == ms[..n];
  }

  // ------------------------------------------------------------ connection loop

  /** The answer to the i-th message of a connection, or None if its handler raises, as it does on JSON that is no object. */
  type Responder = (nat, Message) -> Option<Message>

  ghost predicate Answerable(respond: Responder, tooLarge: Message) {
    |tooLarge| <= ANY_LENGTH && forall i: nat, m: Message :: respond(i, m).Some? ==> |respond(i, m).value| <= ANY_LENGTH
  }

  /** The answers to the messages before the first whose handler raises. */
  function Answers(respond: Responder, ms: seq<Message>): (a: seq<Message>)
    ensures |a| <= |ms|
  {
    if ms == [] then []
    else
      var n := |ms| - 1;
      var a := Answers(respond, ms[..n]);
      if |a| < n then a
      else match respond(n, ms[n]) case None => a case Some(x) => a + [x]
  }

  predicate AllAnswered(respond: Responder, ms: seq<Message>) {
    |Answers(respond, ms)| == |ms|
  }

  /** The i-th answer is the i-th message's own, and the messages stop being answered exactly where a handler raises. */
  lemma {:induction false} AnswersMatch(respond: Responder, ms: seq<Message>, i: nat)
    requires i < |ms|
    ensures var a := Answers(respond, ms);
      && (i < |a| ==> respond(i, ms[i]) == Some(a[i]))
      && (i == |a| ==> respond(i, ms[i]) == None)
    decreases |ms|
  {
    if i < |ms| - 1 {
      AnswersMatch(respond, ms[..|ms| - 1], i);
    }
  }

  /** What the broker says over a whole connection: its answers, and one complaint if it gets as far as an oversized length. */
  function Said(respond: Responder, tooLarge: Message, r: Reading): seq<Message> {
    Answers(respond, r.messages) + (if AllAnswered(respond, r.messages) && r.stop.TooLarge? then [tooLarge] else [])
  }

  lemma {:induction false} AnswersSendable(respond: Responder, tooLarge: Message, ms: seq<Message>)
    requires Answerable(respond, tooLarge)
    ensures Sendable(Answers(respond, ms), ANY_LENGTH)
  {
    if ms != [] {
      AnswersSendable(respond, tooLarge, ms[..|ms| - 1]);
    }
  }

  lemma AnswersAppend(respond: Responder, ms: seq<Message>, m: Message)
    requires AllAnswered(respond, ms)
    ensures Answers(respond, ms + [m]) == Answers(respond, ms) +
      match respond(|ms|, m) case None => [] case Some(x) => [x]
  {
    assert (ms + [m])[..|ms|] == ms;
  }

  /** After a handler raises nothing more is answered. */
  lemma {:induction false} RaisedEnds(respond: Responder, ms: seq<Message>, rest: seq<Message>)
    requires !AllAnswered(respond, ms)
    ensures Answers(respond, ms + rest) == Answers(respond, ms)
    decreases |rest|
  {
    if rest == [] {
      assert ms + rest == ms;
    } else {
      assert (ms + rest)[..|ms + rest| - 1] == ms + rest[..|rest| - 1];
      RaisedEnds(respond, ms, rest[..|rest| - 1]);
    }
  }

  class StreamReader {
    var incoming: seq<Byte>

    constructor (incoming: seq<Byte>)
      ensures this.incoming == incoming
    {
      this.incoming := incoming;
    }

    /** None stands for the stream ending before n bytes have come. */
    method ReadExactly(n: nat) returns (data: Option<seq<Byte>>)
      modifies this
      ensures data.None? <==> |old(incoming)| < n
      ensures data.Some? ==> |data.value| == n && old(incoming) == data.value + incoming
      ensures data.None? ==> incoming == []
    {
      if |incoming| < n {
        incoming := [];
        return None;
      }
      data := Some(incoming[..n]);
      incoming := incoming[n..];
    }
  }

  lemma {:induction false} StreamAppend(ms: seq<Message>, m: Message)
    requires Sendable(ms, ANY_LENGTH) && |m| <= ANY_LENGTH
    ensures Sendable(ms + [m], ANY_LENGTH) && Stream(ms + [m]) == Stream(ms) + Frame(m)
  {
    StreamPrefix(ms + [m], |ms|);
    assert (ms + [m])[..|ms|] == ms && (ms + [m])[|ms|..] == [m];
    assert Stream([m]) == Frame(m) + Stream([]);
  }

  // What is left of `s` after the messages `done` still decides how the connection ends.
  ghost predicate Remaining(s: seq<Byte>, done: seq<Message>, left: seq<Byte>) {
    var r := Read(BROKER_LIMIT, left);
    Read(BROKER_LIMIT, s) == Reading(done + r.messages, r.stop)
  }

  lemma NextMessage(s: seq<Byte>, done: seq<Message>, prefix: seq<Byte>, body: seq<Byte>, left: seq<Byte>)
    requires |prefix| == PREFIX && Length(prefix) == |body| <= BROKER_LIMIT
    requires Remaining(s, done, prefix + (body + left))
    ensures Remaining(s, done + [body], left)
  {
    var t := prefix + (body + left);
    assert t[..PREFIX] == prefix;
    assert First(BROKER_LIMIT, t) == body && Rest(BROKER_LIMIT, t) == left;
    assert done + ([body] + Read(BROKER_LIMIT, left).messages) == done + [body] + Read(BROKER_LIMIT, left).messages;
  }

  lemma LastMessage(s: seq<Byte>, done: seq<Message>, left: seq<Byte>)
    requires Remaining(s, done, left) && !Complete(BROKER_LIMIT, left)
    ensures Read(BROKER_LIMIT, s).messages == done
    ensures Read(BROKER_LIMIT, s).stop.TooLarge? <==> Oversized(BROKER_LIMIT, left)
  {
  }

  /** A handler raised on `m`: what was said is all that will be. */
  lemma Raised(s: seq<Byte>, done: seq<Message>, m: Message, left: seq<Byte>, respond: Responder, tooLarge: Message)
    requires Remaining(s, done + [m], left) && AllAnswered(respond, done) && respond(|done|, m) == None
    ensures Said(respond, tooLarge, Read(BROKER_LIMIT, s)) == Answers(respond, done)
  {
    AnswersAppend(respond, done, m);
    RaisedEnds(respond, done + [m], Read(BROKER_LIMIT, left).messages);
  }

  /** The broker's side of one connection, from the first byte to the last. */
  method HandleConnection(reader: StreamReader, respond: Responder, tooLarge: Message) returns (output: seq<Byte>)
    requires Answerable(respond, tooLarge)
    modifies reader
    ensures var said := Said(respond, tooLarge, Read(BROKER_LIMIT, old(reader.incoming)));
      Sendable(said, ANY_LENGTH) && output == Stream(said)
  {
    output := [];
    var served := 0;
    ghost var s := reader.incoming;
    ghost var done: seq<Message> := [];
    assert [] + Read(BROKER_LIMIT, s).messages == Read(BROKER_LIMIT, s).messages;
    while true
      invariant served == |done| && AllAnswered(respond, done) && Remaining(s, done, reader.incoming)
      invariant Sendable(Answers(respond, done), ANY_LENGTH) && output == Stream(Answers(respond, done))
      decreases |reader.incoming|
    {
      ghost var left := reader.incoming;
      var rawLen := reader.ReadExactly(PREFIX);
      if rawLen.None? {
        LastMessage(s, done, left);
        assert Answers(respond, done) + [] == Answers(respond, done);
        return;
      }
      var msgLen := Length(rawLen.value);
      assert left[..PREFIX] == rawLen.value;
      if msgLen > BROKER_LIMIT {
        LastMessage(s, done, left);
        StreamAppend(Answers(respond, done), tooLarge);
        output := output + Frame(tooLarge);
        return;
      }
      var rawMsg := reader.ReadExactly(msgLen);
      if rawMsg.None? {
        LastMessage(s, done, left);
        assert Answers(respond, done) + [] == Answers(respond, done);
        return;
      }
      NextMessage(s, done, rawLen.value, rawMsg.value, reader.incoming);
      var response := respond(served, rawMsg.value);
      if response.None? {
        Raised(s, done, rawMsg.value, reader.incoming, respond, tooLarge);
        return;
      }
      AnswersAppend(respond, done, rawMsg.value);
      StreamAppend(Answers(respond, done), response.value);
      output := output + Frame(response.value);
      served := served + 1;
      done := done + [rawMsg.value];
    }
  }

  /**
   End to end: requests within the limit, framed and cut up by the network in any way, come back to the
   client as the i-th answer to the i-th request, up to the first whose handler raises, and nothing more.
   */
  lemma Conversation(requests: seq<Message>, sent: seq<seq<Byte>>, received: seq<seq<Byte>>, respond: Responder, tooLarge: Message)
    requires Answerable(respond, tooLarge) && Sendable(requests, BROKER_LIMIT) && Concat(sent) == Stream(requests)
    requires var said := Said(respond, tooLarge, FeedAll(BROKER_LIMIT, Read(BROKER_LIMIT, []), sent));
      Sendable(said, ANY_LENGTH) && Concat(received) == Stream(said)
    ensures FeedAll(ANY_LENGTH, Read(ANY_LENGTH, []), received) == Reading(Answers(respond, requests), Ended([]))
    ensures forall i: nat :: i < |requests| ==>
      (i < |Answers(respond, requests)| ==> respond(i, requests[i]) == Some(Answers(respond, requests)[i])) &&
      (i == |Answers(respond, requests)| ==> respond(i, requests[i]) == None)
  {
    ChunkingIsInvisible(BROKER_LIMIT, requests, sent);
    assert Answers(respond, requests) + [] == Answers(respond, requests);
    AnswersSendable(respond, tooLarge, requests);
    ChunkingIsInvisible(ANY_LENGTH, Answers(respond, requests), received);
    forall i: nat | i < |requests|
      ensures i < |Answers(respond, requests)| ==> respond(i, requests[i]) == Some(Answers(respond, requests)[i])
      ensures i == |Answers(respond, requests)| ==> respond(i, requests[i]) == None
    {
      AnswersMatch(respond, requests, i);
    }
  }

  /** The first oversized length ends the conversation: the messages before it are answered, the rest are not. */
  lemma OversizedEnds(before: seq<Message>, tail: seq<Byte>, respond: Responder, tooLarge: Message)
    requires Sendable(before, BROKER_LIMIT) && Oversized(BROKER_LIMIT, tail)
    ensures Said(respond, tooLarge, Read(BROKER_LIMIT, Stream(before) + tail))
      == Answers(respond, before) + if AllAnswered(respond, before) then [tooLarge] else []
  {
    StreamRoundTrip(BROKER_LIMIT, before, tail);
    assert before + [] == before;
  }
}

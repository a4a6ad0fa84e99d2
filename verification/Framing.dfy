/**
 Frames on a byte stream. All three links of the system use a four-byte big-endian header: two bytes of
 request id and two of length between client and realtime server (Session.cpp, tcpmgr.cpp), four of
 length between realtime and media server (MediaSignalClient.cpp, the media server's Session.cpp).
 */
module Framing {
  newtype byte = x: int | 0 <= x < 256

  type Bytes = seq<byte>

  const HEADER: nat := 4
  const MAX_PENDING: nat := 4 * 1024 * 1024
  const FIRST_INTERNAL: nat := 0xFFF0

  /** Which end reads: the realtime server's client link, the client, or either end of the media link. */
  datatype Link = Server | Client | Media

  datatype Frame = Frame(id: nat, payload: Bytes)

  function Word(high: byte, low: byte): nat {
    high as nat * 0x100 + low as nat
  }

  function High(n: nat): byte
    requires n < 0x1_0000
  {
    (n / 0x100) as byte
  }

  function Low(n: nat): byte {
    (n % 0x100) as byte
  }

  function Id(link: Link, s: Bytes): nat
    requires |s| >= HEADER
  {
    if link.Media? then 0 else Word(s[0], s[1])
  }

  function Length(link: Link, s: Bytes): nat
    requires |s| >= HEADER
  {
    (if link.Media? then Word(s[0], s[1]) * 0x1_0000 else 0) + Word(s[2], s[3])
  }

  /** The reader gives the connection up at this header, without waiting for the payload. */
  predicate Refuses(link: Link, s: Bytes)
    requires |s| >= HEADER
  {
    match link
    case Server => Id(link, s) >= FIRST_INTERNAL
    case Client => false
    case Media => Length(link, s) > MAX_PENDING - HEADER
  }

  /** What may be sent over a link: what its reader does not refuse. */
  predicate Sendable(link: Link, f: Frame) {
    match link
    case Server => f.id < FIRST_INTERNAL && |f.payload| <= 0xFFFF
    case Client => f.id <= 0xFFFF && |f.payload| <= 0xFFFF
    case Media => f.id == 0 && |f.payload| <= MAX_PENDING - HEADER
  }

  function Header(link: Link, id: nat, length: nat): (s: Bytes)
    requires id < 0x1_0000 && length < 0x1_0000_0000 && (link.Media? || length < 0x1_0000)
    ensures |s| == HEADER
  {
    if link.Media? then
      [High(length / 0x1_0000), Low(length / 0x1_0000), High(length % 0x1_0000), Low(length % 0x1_0000)]
    else [High(id), Low(id), High(length), Low(length)]
  }

  function Encode(link: Link, f: Frame): (s: Bytes)
    requires Sendable(link, f)
    ensures |s| == HEADER + |f.payload| && s[HEADER..] == f.payload
  {
    Header(link, f.id, |f.payload|) + f.payload
  }

  ghost predicate AllSendable(link: Link, frames: seq<Frame>) {
    forall f :: f in frames ==> Sendable(link, f)
  }

  function EncodeAll(link: Link, frames: seq<Frame>): Bytes
    requires AllSendable(link, frames)
  {
    if frames == [] then [] else Encode(link, frames[0]) + EncodeAll(link, frames[1..])
  }

  function Flat(messages: seq<Bytes>): Bytes {
    if messages == [] then [] else messages[0] + Flat(messages[1..])
  }

  lemma {:induction false} FlatAppend(messages: seq<Bytes>, m: Bytes)
    ensures Flat(messages + [m]) == Flat(messages) + m
  {
    if messages == [] {
      assert messages + [m] == [m];
    } else {
      FlatAppend(messages[1..], m);
      assert (messages + [m])[1..] == messages[1..] + [m];
    }
  }

  lemma {:induction false} EncodeAllAppend(link: Link, frames: seq<Frame>, f: Frame)
    requires AllSendable(link, frames) && Sendable(link, f)
    ensures AllSendable(link, frames + [f])
    ensures EncodeAll(link, frames + [f]) == EncodeAll(link, frames) + Encode(link, f)
  {
    hide Encode, Sendable;
    if frames == [] {
      assert frames + [f] == [f];
    } else {
      EncodeAllAppend(link, frames[1..], f);
      assert (frames + [f])[1..] == frames[1..] + [f];
    }
  }

  lemma WordOfParts(n: nat)
    requires n < 0x1_0000
    ensures Word(High(n), Low(n)) == n
  {
  }

  lemma HeaderOfEncoded(link: Link, f: Frame)
    requires Sendable(link, f)
    ensures var s := Encode(link, f);
      Id(link, s) == f.id && Length(link, s) == |f.payload| && !Refuses(link, s)
  {
    hide Word, High, Low;
    var n := |f.payload|;
    if link.Media? {
      WordOfParts(n / 0x1_0000);
      WordOfParts(n % 0x1_0000);
    } else {
      WordOfParts(f.id);
      WordOfParts(n);
    }
  }

  /** A header is read from the first bytes alone. */
  lemma HeaderOfPrefix(link: Link, s: Bytes, more: Bytes)
    requires |s| >= HEADER
    ensures Id(link, s + more) == Id(link, s) && Length(link, s + more) == Length(link, s)
    ensures Refuses(link, s + more) == Refuses(link, s)
  {
    hide Word;
    assert (s + more)[0] == s[0] && (s + more)[1] == s[1] && (s + more)[2] == s[2] && (s + more)[3] == s[3];
  }

  lemma HeaderReadsBack(link: Link, f: Frame, tail: Bytes)
    requires Sendable(link, f)
    ensures var s := Encode(link, f) + tail;
      Id(link, s) == f.id && Length(link, s) == |f.payload| && !Refuses(link, s)
  {
    hide Id, Length, Refuses, Header;
    HeaderOfEncoded(link, f);
    HeaderOfPrefix(link, Encode(link, f), tail);
  }

  // ---- Reading ----

  /** What a reader makes of the bytes in its buffer: the complete frames, the bytes it keeps, and
      whether it gave up. */
  datatype Parsed = Parsed(frames: seq<Frame>, rest: Bytes, refused: bool)

  predicate Complete(link: Link, s: Bytes) {
    |s| >= HEADER && |s| >= HEADER + Length(link, s)
  }

  function First(link: Link, s: Bytes): Frame
    requires Complete(link, s)
  {
    Frame(Id(link, s), s[HEADER..HEADER + Length(link, s)])
  }

  function Beyond(link: Link, s: Bytes): (rest: Bytes)
    requires Complete(link, s)
    ensures |rest| < |s|
  {
    s[HEADER + Length(link, s)..]
  }

  function Parse(link: Link, s: Bytes): Parsed
    decreases |s|
  {
    if |s| >= HEADER && Refuses(link, s) then Parsed([], s, true)
    else if !Complete(link, s) then Parsed([], s, false)
    else
      var tail := Parse(link, Beyond(link, s));
      tail.(frames := [First(link, s)] + tail.frames)
  }

  lemma ParseFirst(link: Link, f: Frame, tail: Bytes)
    requires Sendable(link, f)
    ensures Parse(link, Encode(link, f) + tail)
         == Parse(link, tail).(frames := [f] + Parse(link, tail).frames)
  {
    hide Id, Length, Refuses, Encode, Sendable;
    var s := Encode(link, f) + tail;
    var size := HEADER + |f.payload|;
    HeaderReadsBack(link, f, tail);
    assert s[HEADER..size] == f.payload && s[size..] == tail;
  }

  lemma {:induction false} ParseAll(link: Link, frames: seq<Frame>, tail: Bytes)
    requires AllSendable(link, frames)
    ensures Parse(link, EncodeAll(link, frames) + tail)
         == Parse(link, tail).(frames := frames + Parse(link, tail).frames)
  {
    hide Parse;
    hide Id, Length, Refuses, Encode, Sendable;
    if frames == [] {
      assert EncodeAll(link, frames) + tail == tail;
      assert frames + Parse(link, tail).frames == Parse(link, tail).frames;
    } else {
      var rest := EncodeAll(link, frames[1..]) + tail;
      assert EncodeAll(link, frames) + tail == Encode(link, frames[0]) + rest;
      ParseFirst(link, frames[0], rest);
      ParseAll(link, frames[1..], tail);
      assert [frames[0]] + (frames[1..] + Parse(link, tail).frames) == frames + Parse(link, tail).frames;
    }
  }

  lemma ParseStep(link: Link, s: Bytes)
    requires !Parse(link, s).refused
    ensures Parse(link, s) ==
      if !Complete(link, s) then Parsed([], s, false)
      else Parse(link, Beyond(link, s)).(frames := [First(link, s)] + Parse(link, Beyond(link, s)).frames)
    ensures Complete(link, s) ==> !Refuses(link, s)
  {
    hide Id, Length, Refuses;
  }

  lemma StepOfPrefix(link: Link, s: Bytes, more: Bytes)
    requires Complete(link, s) && !Refuses(link, s)
    ensures Parse(link, s + more) == Parse(link, Beyond(link, s) + more)
      .(frames := [First(link, s)] + Parse(link, Beyond(link, s) + more).frames)
  {
    hide Id, Length, Refuses;
    HeaderOfPrefix(link, s, more);
    var size := HEADER + Length(link, s);
    assert (s + more)[size..] == s[size..] + more && (s + more)[HEADER..size] == s[HEADER..size];
  }

  /** Parsing what has arrived and keeping the rest for later loses and invents nothing. */
  lemma {:induction false} ParseResumes(link: Link, s: Bytes, more: Bytes)
    requires !Parse(link, s).refused
    ensures var first := Parse(link, s);
      var second := Parse(link, first.rest + more);
      Parse(link, s + more) == second.(frames := first.frames + second.frames)
    decreases |s|
  {
    hide Parse, Complete, First, Beyond;
    var first := Parse(link, s);
    var second := Parse(link, first.rest + more);
    ParseStep(link, s);
    if Complete(link, s) {
      StepOfPrefix(link, s, more);
      ParseResumes(link, Beyond(link, s), more);
      var head, tail := [First(link, s)], Parse(link, Beyond(link, s)).frames;
      assert head + (tail + second.frames) == (head + tail) + second.frames;
    } else {
      assert [] + second.frames == second.frames;
    }
  }

  function Concat(chunks: seq<Bytes>): Bytes {
    if chunks == [] then [] else chunks[0] + Concat(chunks[1..])
  }

  /** A reader that parses after every chunk, starting from what it kept. */
  function ReadChunks(link: Link, kept: Bytes, chunks: seq<Bytes>): Parsed
    decreases |chunks|
  {
    var now := Parse(link, kept);
    if chunks == [] || now.refused then now
    else
      var later := ReadChunks(link, now.rest + chunks[0], chunks[1..]);
      later.(frames := now.frames + later.frames)
  }

  lemma {:induction false} ChunkingIsInvisible(link: Link, kept: Bytes, chunks: seq<Bytes>)
    requires !Parse(link, kept + Concat(chunks)).refused
    ensures ReadChunks(link, kept, chunks) == Parse(link, kept + Concat(chunks))
    decreases |chunks|
  {
    hide Id, Length, Refuses, Encode, Sendable;
    if chunks == [] {
      assert kept + Concat(chunks) == kept;
    } else {
      var now := Parse(link, kept);
      assert kept + Concat(chunks) == kept + (chunks[0] + Concat(chunks[1..]));
      if now.refused { RefusedStays(link, kept, Concat(chunks)); }
      ParseResumes(link, kept, Concat(chunks));
      assert now.rest + Concat(chunks) == (now.rest + chunks[0]) + Concat(chunks[1..]);
      ChunkingIsInvisible(link, now.rest + chunks[0], chunks[1..]);
    }
  }

  lemma {:induction false} RefusedStays(link: Link, s: Bytes, more: Bytes)
    requires Parse(link, s).refused
    ensures Parse(link, s + more).refused
    decreases |s|
  {
    hide Id, Length, Refuses, Encode, Sendable;
    HeaderOfPrefix(link, s, more);
    if !Refuses(link, s) {
      var size := HEADER + Length(link, s);
      RefusedStays(link, s[size..], more);
      assert (s + more)[size..] == s[size..] + more;
    }
  }

  /** Round trip: whatever the chunks in which the stream arrives, the reader gets exactly the frames
      that were sent, in their order, and keeps nothing. */
  lemma RoundTrip(link: Link, frames: seq<Frame>, chunks: seq<Bytes>)
    requires AllSendable(link, frames) && Concat(chunks) == EncodeAll(link, frames)
    ensures ReadChunks(link, [], chunks) == Parsed(frames, [], false)
  {
    var s := EncodeAll(link, frames);
    assert s + [] == s && [] + Concat(chunks) == s;
    ParseAll(link, frames, []);
    assert frames + [] == frames;
    ChunkingIsInvisible(link, [], chunks);
  }

  // ---- Nothing is invented ----

  lemma PartsOfWord(high: byte, low: byte)
    ensures Word(high, low) < 0x1_0000
    ensures High(Word(high, low)) == high && Low(Word(high, low)) == low
  {
  }

  lemma WordsApart(high: nat, low: nat)
    requires low < 0x1_0000
    ensures var n := high * 0x1_0000 + low; n / 0x1_0000 == high && n % 0x1_0000 == low
  {
  }

  lemma HeaderOfWords(link: Link, a: byte, b: byte, c: byte, d: byte)
    ensures Word(a, b) < 0x1_0000 && Word(c, d) < 0x1_0000
    ensures Header(Media, 0, Word(a, b) * 0x1_0000 + Word(c, d)) == [a, b, c, d]
    ensures !link.Media? ==> Header(link, Word(a, b), Word(c, d)) == [a, b, c, d]
  {
    PartsOfWord(a, b);
    PartsOfWord(c, d);
    WordsApart(Word(a, b), Word(c, d));
    hide Word, High, Low;
  }

  lemma FirstFour(s: Bytes)
    requires |s| >= HEADER
    ensures s[..HEADER] == [s[0], s[1], s[2], s[3]]
  {
  }

  /** What is read as a header is the header of the frame that is read. */
  lemma HeaderWasWritten(link: Link, s: Bytes)
    requires |s| >= HEADER
    ensures Id(link, s) < 0x1_0000 && Length(link, s) < 0x1_0000_0000 && (!link.Media? ==> Length(link, s) < 0x1_0000)
    ensures s[..HEADER] == Header(link, Id(link, s), Length(link, s)) && (link.Media? ==> Id(link, s) == 0)
  {
    FirstFour(s);
    HeaderOfWords(link, s[0], s[1], s[2], s[3]);
    hide Word, Header;
    match link
    case Media =>
      assert Length(link, s) == Word(s[0], s[1]) * 0x1_0000 + Word(s[2], s[3]);
    case _ =>
      assert Length(link, s) == Word(s[2], s[3]);
  }

  lemma InPieces(s: Bytes, k: nat, n: nat)
    requires k <= n <= |s|
    ensures s == (s[..k] + s[k..n]) + s[n..]
  {
  }

  lemma FirstMayBeSent(link: Link, s: Bytes)
    requires Complete(link, s) && !Refuses(link, s)
    ensures Sendable(link, First(link, s))
  {
    HeaderWasWritten(link, s);
    hide Id, Length, Header;
    assert |First(link, s).payload| == Length(link, s);
  }

  lemma FirstWasSent(link: Link, s: Bytes)
    requires Complete(link, s) && !Refuses(link, s)
    ensures Sendable(link, First(link, s)) && s == Encode(link, First(link, s)) + Beyond(link, s)
  {
    FirstMayBeSent(link, s);
    HeaderWasWritten(link, s);
    InPieces(s, HEADER, HEADER + Length(link, s));
    hide Id, Length, Header, Refuses, Sendable;
  }

  /** Whatever bytes arrive, the frames read are frames that may be sent over this link, and writing them out again
      gives just the bytes that were consumed. */
  lemma {:induction false} ReadWasSent(link: Link, s: Bytes)
    ensures var p := Parse(link, s);
      AllSendable(link, p.frames) && s == EncodeAll(link, p.frames) + p.rest
    decreases |s|
  {
    hide Id, Length, Refuses, Encode, Sendable, First, Beyond;
    var p := Parse(link, s);
    if (|s| >= HEADER && Refuses(link, s)) || !Complete(link, s) {
      assert EncodeAll(link, []) + s == s;
    } else {
      FirstWasSent(link, s);
      var later := Parse(link, Beyond(link, s));
      ReadWasSent(link, Beyond(link, s));
      assert p.frames[0] == First(link, s) && p.frames[1..] == later.frames;
      assert Encode(link, First(link, s)) + (EncodeAll(link, later.frames) + later.rest) == s;
    }
  }

  /** A frame that may be sent begins with these four bytes. */
  ghost predicate Heads(link: Link, s: Bytes)
    requires |s| >= HEADER
  {
    exists f :: Sendable(link, f) && Encode(link, f)[..HEADER] == s[..HEADER]
  }

  lemma SameHeader(link: Link, s: Bytes, t: Bytes)
    requires |s| >= HEADER && |t| >= HEADER && s[..HEADER] == t[..HEADER]
    ensures Refuses(link, s) == Refuses(link, t)
  {
    HeaderOfPrefix(link, s[..HEADER], s[HEADER..]);
    HeaderOfPrefix(link, t[..HEADER], t[HEADER..]);
    assert s == s[..HEADER] + s[HEADER..] && t == t[..HEADER] + t[HEADER..];
  }

  lemma HeadsIff(link: Link, s: Bytes)
    requires |s| >= HEADER
    ensures Heads(link, s) <==> !Refuses(link, s)
  {
    if !Refuses(link, s) {
      HeaderWasWritten(link, s);
      var f := Frame(Id(link, s), seq(Length(link, s), _ => 0));
      hide Id, Length, Header;
      assert Sendable(link, f);
      assert Encode(link, f)[..HEADER] == s[..HEADER];
    }
    if Heads(link, s) {
      var f :| Sendable(link, f) && Encode(link, f)[..HEADER] == s[..HEADER];
      HeaderOfEncoded(link, f);
      SameHeader(link, Encode(link, f), s);
    }
  }

  /** The reader gives up exactly at four bytes with which no frame begins, and otherwise leaves only a frame that
      is incomplete. */
  lemma {:induction false} GivesUpExactly(link: Link, s: Bytes)
    ensures var p := Parse(link, s);
      && (p.refused <==> |p.rest| >= HEADER && !Heads(link, p.rest))
      && forall f, tail :: Sendable(link, f) ==> p.rest != Encode(link, f) + tail
    decreases |s|
  {
    if |s| >= HEADER { HeadsIff(link, s); }
    if (|s| >= HEADER && Refuses(link, s)) || !Complete(link, s) {
      forall f, tail | Sendable(link, f)
        ensures s != Encode(link, f) + tail
      {
        HeaderReadsBack(link, f, tail);
      }
    } else {
      hide Id, Length, Refuses, Encode, Sendable, Heads;
      GivesUpExactly(link, Beyond(link, s));
    }
  }

  lemma ParseNothing(link: Link)
    ensures Parse(link, []) == Parsed([], [], false)
  {
  }

  /** While the stream is still arriving, the reader has a prefix of the frames sent, and holds no
      complete frame back. */
  lemma {:induction false} PrefixReads(link: Link, frames: seq<Frame>, s: Bytes)
    requires AllSendable(link, frames) && s <= EncodeAll(link, frames)
    ensures var p := Parse(link, s);
      && !p.refused && p.frames <= frames
      && s == EncodeAll(link, p.frames) + p.rest
      && (|p.frames| < |frames| ==> |p.rest| < |Encode(link, frames[|p.frames|])|)
      && (p.frames == frames ==> p.rest == [])
  {
    hide Parse, Encode, Sendable;
    var p := Parse(link, s);
    if frames == [] {
      ParseNothing(link);
    } else {
      var first, later := Encode(link, frames[0]), EncodeAll(link, frames[1..]);
      if |s| < |first| {
        IncompleteWaits(link, frames[0], later, s);
      } else {
        var tail := s[|first|..];
        assert s == first + tail && tail <= later by {
          assert first + later == EncodeAll(link, frames);
          assert s == (first + later)[..|s|];
        }
        ParseFirst(link, frames[0], tail);
        PrefixReads(link, frames[1..], tail);
        PrefixStep(link, frames, Parse(link, tail).frames, Parse(link, tail).rest);
      }
    }
  }

  lemma PrefixStep(link: Link, frames: seq<Frame>, read: seq<Frame>, rest: Bytes)
    requires frames != [] && AllSendable(link, frames) && read <= frames[1..]
    ensures var all := [frames[0]] + read;
      all <= frames && Encode(link, frames[0]) + (EncodeAll(link, read) + rest) == EncodeAll(link, all) + rest
  {
    hide Encode, Sendable;
    var all := [frames[0]] + read;
    assert all[1..] == read;
  }

  lemma IncompleteWaits(link: Link, f: Frame, tail: Bytes, s: Bytes)
    requires Sendable(link, f) && s <= Encode(link, f) + tail && |s| < |Encode(link, f)|
    ensures Parse(link, s) == Parsed([], s, false)
  {
    hide Id, Length, Refuses, Encode, Sendable;
    HeaderReadsBack(link, f, tail);
    var all := Encode(link, f) + tail;
    if |s| >= HEADER {
      HeaderOfPrefix(link, s, all[|s|..]);
      assert s + all[|s|..] == all;
    }
  }
}

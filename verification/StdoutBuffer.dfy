/**
 The per-task stdout buffer of the server (ws/handler.go, the "stdout" message).

 A chunk arrives through a JSON decoder, so it is always well-formed UTF-8; a Go string is
 modelled as the sequence of its runes, with the byte width of each rune given by the table in
 section 3 of RFC 3629.
 */
module StdoutBuffer {

  /** ws/handler.go:77 */
  const STDOUT_MAX_BYTES: nat := 5 * 1024 * 1024

  function Width(c: char): (w: nat)
    ensures 1 <= w <= 4
  {
    if (c as int) < 0x80 then 1
    else if (c as int) < 0x800 then 2
    else if (c as int) < 0x1_0000 then 3
    else 4
  }

  /** len([]byte(s)) */
  function ByteLen(s: string): nat
  {
    if s == "" then 0 else ByteLen(s[..|s| - 1]) + Width(s[|s| - 1])
  }

  /** What is left when runes are dropped from the end until the rest fits. */
  function Fit(s: string, cap: nat): string
  {
    if ByteLen(s) <= cap then s else Fit(s[..|s| - 1], cap)
  }

  /** The rune-dropping loop. */
  method Truncate(combined: string, cap: nat) returns (kept: string)
    ensures kept == Fit(combined, cap)
  {
    kept := combined;
    while ByteLen(kept) > cap
      invariant Fit(kept, cap) == Fit(combined, cap)
    {
      kept := kept[..|kept| - 1];
    }
  }

  /** One "stdout" message: append the chunk, then cut to the cap. */
  function Accumulate(buffer: string, chunk: string, cap: nat): string
  {
    Fit(buffer + chunk, cap)
  }

  /** Everything the agent streamed, and what the buffer holds after it. */
  function Stream(chunks: seq<string>): string
  {
    if chunks == [] then "" else Stream(chunks[..|chunks| - 1]) + chunks[|chunks| - 1]
  }

  function Buffered(chunks: seq<string>, cap: nat): string
  {
    if chunks == [] then "" else Accumulate(Buffered(chunks[..|chunks| - 1], cap), chunks[|chunks| - 1], cap)
  }

  lemma {:induction false} ByteLenAppend(a: string, b: string)
    ensures ByteLen(a + b) == ByteLen(a) + ByteLen(b)
  {
    if b == "" {
      assert a + b == a;
    } else {
      ByteLenAppend(a, b[..|b| - 1]);
      assert (a + b)[..|a + b| - 1] == a + b[..|b| - 1];
    }
  }

  /** The loop keeps the longest whole-rune prefix that fits, and no other string. */
  lemma {:induction false} FitIsLongestPrefix(s: string, cap: nat)
    ensures var kept := Fit(s, cap);
            && kept <= s
            && ByteLen(kept) <= cap
            && (forall n | |kept| < n <= |s| :: ByteLen(s[..n]) > cap)
  {
    if ByteLen(s) > cap {
      var shorter := s[..|s| - 1];
      FitIsLongestPrefix(shorter, cap);
      forall n | |Fit(s, cap)| < n <= |s| ensures ByteLen(s[..n]) > cap {
        if n == |s| {
          assert s[..n] == s;
        } else {
          assert s[..n] == shorter[..n];
        }
      }
    }
  }

  lemma {:induction false} PrefixIsShorter(a: string, b: string)
    requires a <= b
    ensures ByteLen(a) <= ByteLen(b)
    ensures a != b ==> ByteLen(a) + Width(b[|a|]) <= ByteLen(b)
  {
    assert b == a + b[|a|..];
    ByteLenAppend(a, b[|a|..]);
    if a != b {
      assert b == b[..|a| + 1] + b[|a| + 1..];
      ByteLenAppend(b[..|a| + 1], b[|a| + 1..]);
      assert b[..|a| + 1][..|a|] == a;
    }
  }

  /** Any prefix that fits is inside what Fit keeps. */
  lemma FitKeeps(p: string, s: string, cap: nat)
    requires p <= s && ByteLen(p) <= cap
    ensures p <= Fit(s, cap)
  {
    FitIsLongestPrefix(s, cap);
    assert p == s[..|p|];
  }

  /** A message never removes anything already buffered, and never exceeds the cap. */
  lemma AccumulateExtends(buffer: string, chunk: string, cap: nat)
    requires ByteLen(buffer) <= cap
    ensures buffer <= Accumulate(buffer, chunk, cap) <= buffer + chunk
    ensures ByteLen(Accumulate(buffer, chunk, cap)) <= cap
  {
    FitKeeps(buffer, buffer + chunk, cap);
    FitIsLongestPrefix(buffer + chunk, cap);
  }

  lemma {:induction false} BufferedFits(chunks: seq<string>, cap: nat)
    ensures ByteLen(Buffered(chunks, cap)) <= cap
  {
    if chunks != [] {
      FitIsLongestPrefix(Buffered(chunks[..|chunks| - 1], cap) + chunks[|chunks| - 1], cap);
    }
  }

  /** Over a whole run the buffer only grows, by whole runes, and stays within the cap. */
  lemma {:induction false} BufferGrows(chunks: seq<string>, i: nat, cap: nat)
    requires i <= |chunks|
    ensures Buffered(chunks[..i], cap) <= Buffered(chunks, cap)
    ensures ByteLen(Buffered(chunks, cap)) <= cap
  {
    BufferedFits(chunks, cap);
    if i == |chunks| {
      assert chunks[..i] == chunks;
    } else {
      var front := chunks[..|chunks| - 1];
      assert chunks[..i] == front[..i];
      BufferGrows(front, i, cap);
      AccumulateExtends(Buffered(front, cap), chunks[|chunks| - 1], cap);
    }
  }

  /** Cutting loses at most three bytes of room: the dropped rune is at most four bytes wide. */
  lemma FitFillsUp(s: string, cap: nat)
    requires ByteLen(s) > cap
    ensures cap - 3 <= ByteLen(Fit(s, cap)) <= cap
  {
    FitIsLongestPrefix(s, cap);
    var kept := Fit(s, cap);
    assert |kept| == |s| ==> kept == s;
    var next := s[..|kept| + 1];
    assert next[..|next| - 1] == kept;
  }

  /**
   Nothing is lost until the whole stream no longer fits; from then on the buffer stays within
   three bytes of the cap.
   */
  lemma {:induction false} BufferOfStream(chunks: seq<string>, cap: nat)
    ensures ByteLen(Stream(chunks)) <= cap ==> Buffered(chunks, cap) == Stream(chunks)
    ensures ByteLen(Stream(chunks)) > cap ==> cap - 3 <= ByteLen(Buffered(chunks, cap)) <= cap
  {
    if chunks != [] {
      var front, last := chunks[..|chunks| - 1], chunks[|chunks| - 1];
      var b := Buffered(front, cap);
      BufferOfStream(front, cap);
      BufferedFits(front, cap);
      ByteLenAppend(Stream(front), last);
      AccumulateExtends(b, last, cap);
      if ByteLen(Stream(front)) > cap {
        PrefixIsShorter(b, Accumulate(b, last, cap));
      } else if ByteLen(Stream(chunks)) > cap {
        FitFillsUp(b + last, cap);
      }
    }
  }

  // ---- When the buffer is a prefix of the stream ----

  /** The chunk brings no rune into the buffer. */
  predicate NothingSlipsIn(buffer: string, chunk: string, cap: nat)
  {
    chunk == "" || ByteLen(buffer) + Width(chunk[0]) > cap
  }

  /**
   About the chunks alone: at each one, what was streamed before it fits, or it is empty, or its first
   rune does not fit after the longest prefix of the stream that does.
   */
  predicate NeverSlips(chunks: seq<string>, cap: nat)
  {
    chunks == [] ||
    var front, last := chunks[..|chunks| - 1], chunks[|chunks| - 1];
    NeverSlips(front, cap) && (ByteLen(Stream(front)) <= cap || NothingSlipsIn(Fit(Stream(front), cap), last, cap))
  }

  lemma BlockedIffNothingSlips(buffer: string, chunk: string, cap: nat)
    requires ByteLen(buffer) <= cap
    ensures Accumulate(buffer, chunk, cap) == buffer <==> NothingSlipsIn(buffer, chunk, cap)
  {
    var s := buffer + chunk;
    AccumulateExtends(buffer, chunk, cap);
    FitIsLongestPrefix(s, cap);
    if chunk != "" {
      var next := s[..|buffer| + 1];
      assert next == buffer + [chunk[0]];
      ByteLenAppend(buffer, [chunk[0]]);
      assert ByteLen([chunk[0]]) == Width(chunk[0]) by { assert [chunk[0]][..0] == ""; }
      if ByteLen(next) <= cap {
        FitKeeps(next, s, cap);
        assert Fit(s, cap) != buffer;
      } else if Fit(s, cap) != buffer {
        assert next <= Fit(s, cap);
        PrefixIsShorter(next, Fit(s, cap));
      }
    } else {
      assert s == buffer;
    }
  }

  /** What does not fit is cut in the same place whatever follows. */
  lemma {:induction false} FitOfLonger(s: string, t: string, cap: nat)
    requires ByteLen(s) > cap
    ensures Fit(s + t, cap) == Fit(s, cap)
  {
    if t == "" {
      assert s + t == s;
    } else {
      var init := t[..|t| - 1];
      assert (s + t)[..|s + t| - 1] == s + init;
      ByteLenAppend(s, t);
      FitOfLonger(s, init, cap);
    }
  }

  lemma LostRuneDoesNotFit(s: string, cap: nat)
    requires ByteLen(s) > cap
    ensures var kept := Fit(s, cap);
            kept <= s && |kept| < |s| && ByteLen(kept) <= cap < ByteLen(kept) + Width(s[|kept|])
  {
    FitIsLongestPrefix(s, cap);
    var kept := Fit(s, cap);
    var next := s[..|kept| + 1];
    assert next[..|next| - 1] == kept;
  }

  /** As long as nothing slips in, cutting at every chunk is cutting the whole stream once. */
  lemma {:induction false} BufferedIsFit(chunks: seq<string>, cap: nat)
    requires NeverSlips(chunks, cap)
    ensures Buffered(chunks, cap) == Fit(Stream(chunks), cap)
  {
    if chunks != [] {
      var front, last := chunks[..|chunks| - 1], chunks[|chunks| - 1];
      BufferedIsFit(front, cap);
      if ByteLen(Stream(front)) > cap {
        BufferedFits(front, cap);
        BlockedIffNothingSlips(Buffered(front, cap), last, cap);
        FitOfLonger(Stream(front), last, cap);
      }
    }
  }

  /** The rune that slips in fits, the one it displaces does not. */
  lemma SlippedInIsWrong(s: string, last: string, cap: nat)
    requires ByteLen(s) > cap && !NothingSlipsIn(Fit(s, cap), last, cap)
    ensures !(Accumulate(Fit(s, cap), last, cap) <= s + last)
  {
    var b := Fit(s, cap);
    LostRuneDoesNotFit(s, cap);
    BlockedIffNothingSlips(b, last, cap);
    AccumulateExtends(b, last, cap);
    var b' := Accumulate(b, last, cap);
    assert |b'| > |b| && b'[|b|] == (b + last)[|b|] == last[0];
    assert (s + last)[|b|] == s[|b|] != last[0];
  }

  /**
   The exact condition: the buffer is a prefix of what was streamed if and only if no later rune
   was narrow enough to slip in after a wider one had been dropped.
   */
  lemma {:induction false} PrefixOfStreamIff(chunks: seq<string>, cap: nat)
    ensures Buffered(chunks, cap) <= Stream(chunks) <==> NeverSlips(chunks, cap)
  {
    if NeverSlips(chunks, cap) {
      BufferedIsFit(chunks, cap);
      FitIsLongestPrefix(Stream(chunks), cap);
    } else {
      var front, last := chunks[..|chunks| - 1], chunks[|chunks| - 1];
      PrefixOfStreamIff(front, cap);
      if NeverSlips(front, cap) {
        BufferedIsFit(front, cap);
        SlippedInIsWrong(Stream(front), last, cap);
      } else {
        NotPrefixForGood(front, last, cap);
      }
    }
  }

  lemma NotPrefixForGood(front: seq<string>, last: string, cap: nat)
    requires !(Buffered(front, cap) <= Stream(front))
    ensures !(Accumulate(Buffered(front, cap), last, cap) <= Stream(front) + last)
  {
    var b, s := Buffered(front, cap), Stream(front);
    BufferedFits(front, cap);
    AccumulateExtends(b, last, cap);
    BufferNotLonger(front, cap);
  }

  lemma {:induction false} BufferNotLonger(chunks: seq<string>, cap: nat)
    ensures |Buffered(chunks, cap)| <= |Stream(chunks)|
  {
    if chunks != [] {
      var front := chunks[..|chunks| - 1];
      BufferNotLonger(front, cap);
      FitIsLongestPrefix(Buffered(front, cap) + chunks[|chunks| - 1], cap);
    }
  }

  /** The letter a, n times. */
  function Letters(n: nat): string
  {
    if n == 0 then "" else Letters(n - 1) + "a"
  }

  lemma {:induction false} LettersLen(n: nat)
    ensures ByteLen(Letters(n)) == n
  {
    if n > 0 {
      LettersLen(n - 1);
      assert Letters(n)[..|Letters(n)| - 1] == Letters(n - 1);
    }
  }

  /** The chunks that fill a buffer of this size but for one byte, then bring a wide rune, then a narrow one. */
  function SlippingChunks(cap: nat): seq<string>
    requires cap >= 1
  {
    [Letters(cap - 1), ['\U{00E9}'], "d"]
  }

  /** For every size of the buffer, that of the code among them, there are chunks of which it keeps no prefix. */
  lemma SlippedRune(cap: nat)
    requires cap >= 1
    ensures !(Buffered(SlippingChunks(cap), cap) <= Stream(SlippingChunks(cap)))
  {
    var chunks, a, e := SlippingChunks(cap), Letters(cap - 1), ['\U{00E9}'];
    var two := chunks[..2];
    LettersLen(cap - 1);
    assert two == [a, e] && two[..1] == [a] && [a][..0] == [];
    assert Stream([a]) == a by { assert "" + a == a; }
    assert Stream(two) == a + e;
    assert (a + e)[..|a + e| - 1] == a && (a + e)[|a + e| - 1] == e[0];
    assert ByteLen(a + e) == cap + 1;
    assert Fit(a + e, cap) == Fit(a, cap) == a;
    assert !NeverSlips(chunks, cap);
    PrefixOfStreamIff(chunks, cap);
  }

  // ---- One-byte runes ----

  predicate OneByte(s: string)
  {
    forall c | c in s :: Width(c) == 1
  }

  lemma {:induction false} OneByteLen(s: string)
    requires OneByte(s)
    ensures ByteLen(s) == |s|
  {
    if s != "" {
      OneByteLen(s[..|s| - 1]);
    }
  }

  lemma OneByteFit(s: string, cap: nat)
    requires OneByte(s)
    ensures Fit(s, cap) == s[..if |s| < cap then |s| else cap]
  {
    OneByteLen(s);
    FitIsLongestPrefix(s, cap);
    var kept := Fit(s, cap);
    OneByteLen(kept);
    var n := if |kept| < |s| then |kept| + 1 else |s|;
    OneByteLen(s[..n]);
  }

  /** With one-byte runes the buffer is exactly the first cap bytes of the whole stream. */
  lemma {:induction false} OneByteBuffer(chunks: seq<string>, cap: nat)
    requires OneByte(Stream(chunks))
    ensures Buffered(chunks, cap) == Stream(chunks)[..if |Stream(chunks)| < cap then |Stream(chunks)| else cap]
  {
    if chunks != [] {
      var front, last := chunks[..|chunks| - 1], chunks[|chunks| - 1];
      var whole := Stream(chunks);
      assert OneByte(Stream(front)) by {
        assert forall c | c in Stream(front) :: c in whole;
      }
      OneByteBuffer(front, cap);
      var joined := Buffered(front, cap) + last;
      assert OneByte(joined) by {
        assert forall c | c in last :: c in whole;
      }
      OneByteFit(joined, cap);
    }
  }
}

/** The splitting of a ping response that procPing0Msg .. procPing3Msg each repeat:
    the response is copied into the receive buffer with strncpy, the buffer's first six
    characters are checked against the header "{p|00N", and the buffer from index 1 on
    is cut at every '|' into tokens. */
module PingResponse {

  datatype Option<T> = None | Some(value: T)

  const Separator: char := '|'
  const Nul: char := '\0'

  /** The header a response to ping `n` starts with: "{p|000", "{p|001", ... */
  function Header(n: nat): (h: seq<char>)
    requires n <= 3
    ensures |h| == 6
    ensures forall j :: 0 <= j < |h| ==> h[j] != Nul
  {
    "{p|00" + [('0' as int + n) as char]
  }

  /** The four handlers accept disjoint sets of responses. */
  lemma HeadersDistinct(n: nat, m: nat)
    requires n <= 3 && m <= 3 && n != m
    ensures Header(n) != Header(m)
  {
    assert Header(n)[5] != Header(m)[5];
  }

  /** The index of the first NUL of `msg`, or its length when there is none. */
  function FirstNul(msg: seq<char>): (k: nat)
    ensures k <= |msg|
    ensures forall j :: 0 <= j < k ==> msg[j] != Nul
    ensures k < |msg| ==> msg[k] == Nul
    decreases |msg|
  {
    if msg == [] || msg[0] == Nul then 0 else 1 + FirstNul(msg[1..])
  }

  /** The receive buffer after strncpy of the whole response: the characters before the
      first NUL, then NULs up to the same length. */
  function Copied(msg: seq<char>): (buf: seq<char>)
    ensures |buf| == |msg|
    ensures buf[..FirstNul(msg)] == msg[..FirstNul(msg)]
    ensures forall j :: FirstNul(msg) <= j < |msg| ==> buf[j] == Nul
  {
    msg[..FirstNul(msg)] + seq(|msg| - FirstNul(msg), _ => Nul)
  }

  /** A response without a NUL is copied unchanged. */
  lemma CopiedNulFree(msg: seq<char>)
    requires Nul !in msg
    ensures Copied(msg) == msg
  {
  }

  /** The copy passes the header check exactly when the response does: the header holds no NUL. */
  lemma HeaderSurvivesCopy(msg: seq<char>, n: nat)
    requires n <= 3
    ensures (|Copied(msg)| >= 6 && Copied(msg)[..6] == Header(n)) <==> (|msg| >= 6 && msg[..6] == Header(n))
  {
    var buf, h, k := Copied(msg), Header(n), FirstNul(msg);
    if |msg| >= 6 && msg[..6] == h {
      assert buf[..6] == buf[..k][..6] == msg[..k][..6];
    }
    if |buf| >= 6 && buf[..6] == h {
      assert msg[..6] == msg[..k][..6] == buf[..k][..6];
    }
  }

  /** The number of separators in `s`. */
  function Count(s: seq<char>): nat
    decreases |s|
  {
    if s == [] then 0
    else Count(s[..|s| - 1]) + (if s[|s| - 1] == Separator then 1 else 0)
  }

  predicate SeparatorFree(t: seq<char>)
  {
    forall j :: 0 <= j < |t| ==> t[j] != Separator
  }

  /** The tokens of `s`, built character by character from the left: a separator closes
      the current token and opens an empty one, any other character extends it. */
  function Split(s: seq<char>): (r: seq<seq<char>>)
    ensures |r| >= 1
    decreases |s|
  {
    if s == [] then [[]]
    else
      var init := Split(s[..|s| - 1]);
      var c := s[|s| - 1];
      if c == Separator then init + [[]]
      else init[..|init| - 1] + [init[|init| - 1] + [c]]
  }

  /** Tokens put back together with a separator between neighbours. */
  function Join(ts: seq<seq<char>>): seq<char>
    requires |ts| >= 1
    decreases |ts|
  {
    if |ts| == 1 then ts[0]
    else Join(ts[..|ts| - 1]) + [Separator] + ts[|ts| - 1]
  }

  /** One token more than there are separators. */
  lemma {:induction false} SplitCount(s: seq<char>)
    ensures |Split(s)| == Count(s) + 1
    decreases |s|
  {
    if s != [] {
      SplitCount(s[..|s| - 1]);
    }
  }

  /** No token holds a separator. */
  lemma {:induction false} SplitTokensSeparatorFree(s: seq<char>)
    ensures forall k :: 0 <= k < |Split(s)| ==> SeparatorFree(Split(s)[k])
    decreases |s|
  {
    if s != [] {
      var init := Split(s[..|s| - 1]);
      SplitTokensSeparatorFree(s[..|s| - 1]);
      var c := s[|s| - 1];
      if c != Separator {
        var last := init[|init| - 1] + [c];
        assert SeparatorFree(init[|init| - 1]);
        assert SeparatorFree(last);
        assert Split(s) == init[..|init| - 1] + [last];
      }
    }
  }

  /** Joining the tokens gives back the text they were cut from. */
  lemma {:induction false} JoinSplit(s: seq<char>)
    ensures Join(Split(s)) == s
    decreases |s|
  {
    if s != [] {
      var front := s[..|s| - 1];
      var init := Split(front);
      JoinSplit(front);
      var c := s[|s| - 1];
      if c == Separator {
        assert (init + [[]])[..|init|] == init;
        assert s == front + [c];
      } else {
        var n := |init|;
        var r := init[..n - 1] + [init[n - 1] + [c]];
        if n == 1 {
          assert s == front + [c];
        } else {
          assert r[..n - 1] == init[..n - 1];
          assert Join(init) == Join(init[..n - 1]) + [Separator] + init[n - 1];
          assert s == front + [c];
        }
      }
    }
  }

  /** A separator-free text is a single token. */
  lemma {:induction false} SplitSeparatorFree(t: seq<char>)
    requires SeparatorFree(t)
    ensures Split(t) == [t]
    decreases |t|
  {
    if t != [] {
      var front := t[..|t| - 1];
      assert SeparatorFree(front) by {
        forall j | 0 <= j < |front| ensures front[j] != Separator {
          assert front[j] == t[j];
        }
      }
      SplitSeparatorFree(front);
      assert t[|t| - 1] != Separator;
      assert t == front + [t[|t| - 1]];
    }
  }

  /** Appending a separator and a separator-free token appends exactly that token. */
  lemma {:induction false} SplitAppendToken(x: seq<char>, t: seq<char>)
    requires SeparatorFree(t)
    ensures Split(x + [Separator] + t) == Split(x) + [t]
    decreases |t|
  {
    if t == [] {
      assert (x + [Separator] + t)[..|x| + 1 - 1] == x;
    } else {
      var t' := t[..|t| - 1];
      var y := x + [Separator] + t;
      assert y[..|y| - 1] == x + [Separator] + t';
      SplitAppendToken(x, t');
      assert t == t' + [t[|t| - 1]];
    }
  }

  /** Cutting joined separator-free tokens gives the same tokens back. */
  lemma {:induction false} SplitJoin(ts: seq<seq<char>>)
    requires |ts| >= 1
    requires forall k :: 0 <= k < |ts| ==> SeparatorFree(ts[k])
    ensures Split(Join(ts)) == ts
    decreases |ts|
  {
    if |ts| == 1 {
      SplitSeparatorFree(ts[0]);
    } else {
      var front := ts[..|ts| - 1];
      SplitJoin(front);
      SplitAppendToken(Join(front), ts[|ts| - 1]);
      assert ts == front + [ts[|ts| - 1]];
    }
  }

  /** One more character: a separator opens a new token, any other extends the last. */
  lemma SplitSnoc(s: seq<char>, c: char)
    ensures var init := Split(s);
            Split(s + [c]) == if c == Separator then init + [[]]
                              else init[..|init| - 1] + [init[|init| - 1] + [c]]
  {
    assert (s + [c])[..|s|] == s;
  }

  /** The split loop of procPingNMsg over the receive buffer, from index 1 to its end. */
  method SplitBuffer(buf: seq<char>) returns (tokens: seq<seq<char>>)
    requires |buf| >= 1
    ensures tokens == Split(buf[1..])
    ensures |tokens| == Count(buf[1..]) + 1
    ensures Join(tokens) == buf[1..]
    ensures forall k :: 0 <= k < |tokens| ==> SeparatorFree(tokens[k])
  {
    var result: seq<seq<char>> := [];
    var current: seq<char> := [];
    var i := 1;
    while i < |buf|
      invariant 1 <= i <= |buf|
      invariant result + [current] == Split(buf[1..i])
    {
      assert buf[1..i + 1] == buf[1..i] + [buf[i]];
      SplitSnoc(buf[1..i], buf[i]);
      if buf[i] != Separator {
        assert (result + [current])[..|result|] == result;
        current := current + [buf[i]];
      } else {
        result := result + [current];
        current := [];
      }
      i := i + 1;
    }
    assert buf[1..i] == buf[1..];
    tokens := result + [current];
    SplitCount(buf[1..]);
    JoinSplit(buf[1..]);
    SplitTokensSeparatorFree(buf[1..]);
  }

  /** The copy, the header check and the split of procPingNMsg: a response that does not
      start with the header of ping `n` yields nothing (no device field is assigned), any
      other is copied into the receive buffer and the buffer is cut from index 1 on. */
  method SplitResponse(msg: seq<char>, n: nat) returns (tokens: Option<seq<seq<char>>>)
    requires n <= 3
    ensures tokens.None? <==> !(|msg| >= 6 && msg[..6] == Header(n))
    ensures tokens.Some? ==> tokens.value == Split(Copied(msg)[1..])
    ensures tokens.Some? ==> |tokens.value| == Count(Copied(msg)[1..]) + 1
    ensures tokens.Some? ==> Join(tokens.value) == Copied(msg)[1..]
    ensures tokens.Some? ==> forall k :: 0 <= k < |tokens.value| ==> SeparatorFree(tokens.value[k])
    ensures tokens.Some? && Nul !in msg ==> tokens.value == Split(msg[1..])
  {
    var buf := Copied(msg);
    HeaderSurvivesCopy(msg, n);
    if !(|buf| >= 6 && buf[..6] == Header(n)) {
      return None;
    }
    var ts := SplitBuffer(buf);
    if Nul !in msg {
      CopiedNulFree(msg);
    }
    tokens := Some(ts);
  }

  /** Characters that are not separators add no token. */
  lemma {:induction false} CountSeparatorFree(a: seq<char>, b: seq<char>)
    requires SeparatorFree(b)
    ensures Count(a + b) == Count(a)
    decreases |b|
  {
    if b != [] {
      var b' := b[..|b| - 1];
      assert SeparatorFree(b') by {
        forall j | 0 <= j < |b'| ensures b'[j] != Separator {
          assert b'[j] == b[j];
        }
      }
      CountSeparatorFree(a, b');
      assert (a + b)[..|a + b| - 1] == a + b';
      assert (a + b)[|a + b| - 1] == b[|b| - 1] != Separator;
    } else {
      assert a + b == a;
    }
  }

  /** A NUL inside a response ends it: the copy turns everything after it into NULs, so
      the number of tokens is fixed by the text between index 1 and the first NUL. */
  lemma NulEndsTokens(msg: seq<char>)
    requires 1 <= FirstNul(msg)
    ensures |Split(Copied(msg)[1..])| == Count(msg[1..FirstNul(msg)]) + 1
  {
    var k := FirstNul(msg);
    var pad := seq(|msg| - k, _ => Nul);
    assert Copied(msg)[1..] == msg[1..k] + pad;
    assert SeparatorFree(pad);
    CountSeparatorFree(msg[1..k], pad);
    SplitCount(Copied(msg)[1..]);
  }
}

// Shard arithmetic: which of the thousand shards a customer number belongs to.
module Shards {
  import opened Values
  import opened Bucket
  import opened Lookup

  predicate Digits(s: string) {
    forall i :: 0 <= i < |s| ==> '0' <= s[i] <= '9'
  }

  /** The number a digit string denotes. */
  function Value(s: string): nat
    requires Digits(s)
  {
    if s == "" then 0 else 10 * Value(s[..|s| - 1]) + (s[|s| - 1] as int - '0' as int)
  }

  /** v with n zeros behind it. */
  function Scaled(v: nat, n: nat): nat {
    if n == 0 then v else 10 * Scaled(v, n - 1)
  }

  lemma {:induction false} ValueBound(s: string)
    requires Digits(s)
    ensures Value(s) < Scaled(1, |s|)
  {
    if s != "" { ValueBound(s[..|s| - 1]); }
  }

  lemma {:induction false} ValueAppend(a: string, b: string)
    requires Digits(a) && Digits(b)
    ensures Digits(a + b) && Value(a + b) == Scaled(Value(a), |b|) + Value(b)
  {
    if b == "" {
      assert a + b == a;
    } else {
      var n := |b| - 1;
      ValueAppend(a, b[..n]);
      LastDigit(a + b);
      LastDigit(b);
      assert (a + b)[..|a + b| - 1] == a + b[..n] && (a + b)[|a + b| - 1] == b[n];
    }
  }

  lemma LastDigit(s: string)
    requires Digits(s) && s != ""
    ensures Value(s) == 10 * Value(s[..|s| - 1]) + (s[|s| - 1] as int - '0' as int)
  {
  }

  lemma Thousands(v: nat)
    ensures Scaled(v, 3) == 1000 * v
  {
    assert Scaled(v, 1) == 10 * v;
    assert Scaled(v, 2) == 100 * v;
  }

  lemma {:induction false} ScaledZero(n: nat)
    ensures Scaled(0, n) == 0
  {
    if n != 0 { ScaledZero(n - 1); }
  }

  lemma TailModulo(head: nat, tail: nat)
    requires tail < 1000
    ensures (head * 1000 + tail) % 1000 == tail
  {
  }

  lemma LastThree(s: string)
    requires Digits(s) && |s| >= 3
    ensures Value(s[|s| - 3..]) == Value(s) % 1000
  {
    var head, tail := s[..|s| - 3], s[|s| - 3..];
    assert s == head + tail;
    ValueAppend(head, tail);
    ValueBound(tail);
    Thousands(1);
    Thousands(Value(head));
    TailModulo(Value(head), Value(tail));
  }

  lemma {:induction false} ZerosWorthless(zeros: string)
    requires forall i :: 0 <= i < |zeros| ==> zeros[i] == '0'
    ensures Digits(zeros) && Value(zeros) == 0
  {
    if zeros != "" { ZerosWorthless(zeros[..|zeros| - 1]); }
  }

  lemma DigitsStripped(s: string)
    requires Digits(s)
    ensures Strip(s) == s
  {
    assert s != "" ==> !IsSpace(s[0]) && !IsSpace(s[|s| - 1]);
  }

  lemma {:induction false} Padded(s: string)
    requires Digits(s)
    ensures Digits(ZFill3(s)) && Value(ZFill3(s)) == Value(s)
  {
    if |s| < 3 {
      var zeros := "000"[..3 - |s|];
      ZerosWorthless(zeros);
      ValueAppend(zeros, s);
      ScaledZero(|s|);
    }
  }

  predicate Signed(s: string) {
    s != "" && (s[0] == '+' || s[0] == '-')
  }

  /** For every string: its last three characters, or all of it behind zeros, which go after a sign. */
  lemma PrefixEnds(cusno: string)
    ensures var s, p := Strip(cusno), IndexPrefix(cusno);
      && |p| == 3
      && (|s| >= 3 ==> exists head :: s == head + p)
      && (|s| < 3 && !Signed(s) ==> p == "000"[..3 - |s|] + s)
      && (|s| < 3 && Signed(s) ==> p == [s[0]] + "000"[..3 - |s|] + s[1..])
  {
    var s := Strip(cusno);
    if |s| >= 3 { assert s == s[..|s| - 3] + IndexPrefix(cusno); }
  }

  /** A digit string's shard is its number modulo one thousand, in three digits. */
  lemma PrefixIsModulo(cusno: string)
    requires Digits(cusno)
    ensures |IndexPrefix(cusno)| == 3 && Digits(IndexPrefix(cusno))
    ensures Value(IndexPrefix(cusno)) == Value(cusno) % 1000
  {
    DigitsStripped(cusno);
    Padded(cusno);
    LastThree(ZFill3(cusno));
  }

  lemma {:induction false} ValueInjective(a: string, b: string)
    requires Digits(a) && Digits(b) && |a| == |b| && Value(a) == Value(b)
    ensures a == b
  {
    if a != "" {
      var n := |a| - 1;
      ValueInjective(a[..n], b[..n]);
      assert a == a[..n] + [a[n]] && b == b[..n] + [b[n]];
    }
  }

  /** Two customers share a shard exactly when their numbers agree modulo one thousand. */
  lemma SameShard(a: string, b: string)
    requires Digits(a) && Digits(b)
    ensures IndexPrefix(a) == IndexPrefix(b) <==> Value(a) % 1000 == Value(b) % 1000
  {
    PrefixIsModulo(a);
    PrefixIsModulo(b);
    if Value(a) % 1000 == Value(b) % 1000 { ValueInjective(IndexPrefix(a), IndexPrefix(b)); }
  }

  /** The part of a full index that belongs in one shard. */
  function Shard(full: map<string, Json>, prefix: string): map<string, Json> {
    map c | c in full && IndexPrefix(c) == prefix :: full[c]
  }

  /** Looking a customer up through its shard is looking it up in the full index the shards were cut
      from, errors included; every entry is in exactly one shard. */
  lemma ShardIsFull(e: Env, b: Objects, dir: string, cusno: string, full: map<string, Json>)
    requires ReadJson(e, b, FullKey(dir)) == Some(Obj(full))
    requires ReadJson(e, b, ShardKey(dir, cusno)) == Some(Obj(Shard(full, IndexPrefix(cusno))))
    ensures ViaIndex(e, b, ShardKey(dir, cusno), BulkKey(dir), cusno)
        == ViaIndex(e, b, FullKey(dir), BulkKey(dir), cusno)
    ensures forall p :: cusno in Shard(full, p) <==> cusno in full && p == IndexPrefix(cusno)
  {
  }
}

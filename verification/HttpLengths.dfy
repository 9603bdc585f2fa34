/** Length arithmetic: Content-Length values and chunk sizes are stored exactly or refused. */
module HttpLengths {
  import opened HttpTypes
  import opened HttpChars
  import opened HttpSpec
  import opened HttpInvariant
  import opened HttpMethods
  import HttpMarks

  /** The number a string of digits writes in a base. */
  function Number(base: nat, ds: string): nat {
    if ds == [] then 0
    else
      var d := Unhex(ds[|ds| - 1]);
      Number(base, ds[..|ds| - 1]) * base + if d < 0 then 0 else d
  }

  predicate IsDecimal(ds: string) { forall i :: 0 <= i < |ds| ==> IsNum(ds[i]) }

  predicate IsHexadecimal(ds: string) { forall i :: 0 <= i < |ds| ==> 0 <= Unhex(ds[i]) }

  function ButLast(ds: string): string
    requires ds != []
  {
    ds[..|ds| - 1]
  }

  /** The digits of a Content-Length value: spaces are dropped. */
  function Digits(v: string): string {
    if v == [] then []
    else
      var u := Digits(v[..|v| - 1]);
      if v[|v| - 1] == ' ' then u else u + [v[|v| - 1]]
  }

  lemma {:induction false} ValueSnoc(base: nat, ds: string, ch: char)
    requires 0 <= Unhex(ch)
    ensures Number(base, ds + [ch]) == Number(base, ds) * base + Unhex(ch)
  {
    assert (ds + [ch])[..|ds|] == ds;
  }

  lemma NoValue(base: nat)
    requires 0 < base <= 16
    ensures Number(base, []) == 0 <= Limit(base)
  {
  }

  lemma {:induction false} ValueGrows(base: nat, ds: string)
    requires base >= 1 && ds != []
    ensures Number(base, ButLast(ds)) <= Number(base, ds)
  {
    var n := Number(base, ButLast(ds));
    assert n * base >= n;
  }

  lemma {:induction false} RunSnoc(c: Core, log: seq<Event>, s: string, ch: char)
    ensures var r := Run(c, log, s);
            Run(c, log, s + [ch]) ==
            if !r.end.More? then r.(rest := r.rest + [ch])
            else
              var b := Byte(r.core, r.log, ch);
              match b.end
              case More => Result(b.core, b.log, [], More)
              case Exited => Result(b.core, b.log, [], Exited)
              case Failed(e) => Result(b.core, b.log, [ch], Failed(e))
  {
    hide Byte;
    var r := Run(c, log, s);
    RunConcat(c, log, s, [ch]);
    RunHere(r.core, r.log, [ch], 0);
    assert [ch][0..] == [ch] && [ch][1..] == [];
    if r.end.More? {
      var b := Byte(r.core, r.log, ch);
      RunNothing(b.core, b.log);
    }
  }

  // Chunk sizes.

  predicate Sizing(r: Result, log: seq<Event>, n: nat) {
    r.end.More? && r.rest == [] && r.core.state == InChunk(Size) && r.core.length == n && n < NO_LENGTH && r.log == log
  }

  lemma {:induction false} SizeFirst(c: Core, log: seq<Event>, ch: char)
    requires c.state == InChunk(ChunkState.SizeStart) && 0 <= Unhex(ch)
    ensures Byte(c, log, ch) == Go(c.(tally := c.tally + 1, length := Unhex(ch), state := InChunk(Size)), log)
  {
    hide Unhex;
  }

  lemma {:induction false} SizeNext(c: Core, log: seq<Event>, ch: char)
    requires c.state == InChunk(Size) && 0 <= Unhex(ch)
    ensures Byte(c, log, ch) ==
            if Limit(16) < c.length then Err(c.(tally := c.tally + 1), log, InvalidContentLength)
            else Go(c.(tally := c.tally + 1, length := c.length * 16 + Unhex(ch)), log)
  {
    hide Limit;
  }

  /** The fields a number does not touch. */
  predicate SameRest(c: Core, c': Core) {
    c'.flags == c.flags && c'.kind == c.kind && c'.major == c.major && c'.minor == c.minor && c'.verb == c.verb
    && c'.status == c.status && c'.upgrade == c.upgrade
  }

  lemma {:induction false} SizeStep(c: Core, log: seq<Event>, u: string, n: nat, ch: char)
    requires Sizing(Run(c, log, u), log, n) && SameRest(c, Run(c, log, u).core) && 0 <= Unhex(ch)
    ensures var r := Run(c, log, u + [ch]);
            if n <= Limit(16) then Sizing(r, log, n * 16 + Unhex(ch)) && SameRest(c, r.core)
            else r.end == Failed(InvalidContentLength)
  {
    hide Run, Byte, Unhex, Limit;
    var r := Run(c, log, u);
    RunSnoc(c, log, u, ch);
    SizeNext(r.core, r.log, ch);
    if n <= Limit(16) {
      LimitIsSafe(16, n, Unhex(ch));
    }
  }

  lemma {:induction false} SizeStart(c: Core, log: seq<Event>, ch: char)
    requires c.state == InChunk(ChunkState.SizeStart) && 0 <= Unhex(ch)
    ensures var r := Run(c, log, [ch]); Sizing(r, log, Unhex(ch)) && SameRest(c, r.core)
  {
    hide Run, Byte, Unhex;
    RunSnoc(c, log, [], ch);
    RunNothing(c, log);
    SizeFirst(c, log, ch);
    assert [] + [ch] == [ch];
  }

  /** A chunk size is refused exactly when the number its digits but the last write is above the
      threshold; otherwise the number stored is the one written. */
  lemma {:induction false} ChunkSizeExact(c: Core, log: seq<Event>, ds: string)
    requires c.state == InChunk(ChunkState.SizeStart) && ds != [] && IsHexadecimal(ds)
    ensures var r := Run(c, log, ds);
            if Number(16, ButLast(ds)) <= Limit(16) then Sizing(r, log, Number(16, ds)) && SameRest(c, r.core)
            else r.end == Failed(InvalidContentLength)
    decreases |ds|
  {
    hide Run, Unhex, Limit, Number, Sizing, SameRest;
    var ch := ds[|ds| - 1];
    var u := ButLast(ds);
    assert ds == u + [ch];
    ValueSnoc(16, u, ch);
    if u == [] {
      NoValue(16);
      SizeStart(c, log, ch);
      assert ds == [ch];
    } else {
      ChunkSizeExact(c, log, u);
      ValueGrows(16, u);
      if Number(16, ButLast(u)) <= Limit(16) {
        SizeStep(c, log, u, Number(16, u), ch);
      } else {
        RunSnoc(c, log, u, ch);
      }
    }
  }

  // Content-Length.

  predicate Measuring(r: Result, n: nat) {
    r.end.More? && r.rest == [] && r.core.state == InHeader(HeaderState.Value) && r.core.hstate == ContentLength
    && r.core.length == n && n < NO_LENGTH
  }

  lemma {:induction false} LengthFirst(c: Core, log: seq<Event>, ch: char)
    requires c.state == InHeader(DiscardWs) && c.hstate == ContentLength && IsNum(ch)
    ensures Byte(c, log, ch) ==
            Go(c.(tally := c.tally + 1, state := InHeader(HeaderState.Value), index := 0, length := Digit(ch)),
              Say(log, ValueData, ch))
  {
    hide Say;
  }

  lemma {:induction false} LengthNext(c: Core, log: seq<Event>, ch: char)
    requires c.state == InHeader(HeaderState.Value) && c.hstate == ContentLength && (IsNum(ch) || ch == ' ')
    ensures Byte(c, log, ch) ==
            var c' := c.(tally := c.tally + 1);
            if ch == ' ' then Go(c', Say(log, ValueData, ch))
            else if Limit(10) < c.length then Err(c', log, InvalidContentLength)
            else Go(c'.(length := c.length * 10 + Digit(ch)), Say(log, ValueData, ch))
  {
    hide Say, Limit;
  }

  predicate IsLengthText(v: string) {
    v != [] && IsNum(v[0]) && forall i :: 0 <= i < |v| ==> IsNum(v[i]) || v[i] == ' '
  }

  lemma {:induction false} DigitsOf(v: string)
    requires IsLengthText(v)
    ensures Digits(v) != [] && IsDecimal(Digits(v))
    decreases |v|
  {
    var u := v[..|v| - 1];
    if u == [] {
      assert Digits(u) == [];
    } else {
      DigitsOf(u);
    }
  }

  lemma DigitValue(ch: char)
    requires IsNum(ch)
    ensures Unhex(ch) == Digit(ch) < 10
  {
  }

  lemma {:induction false} LengthStep(c: Core, log: seq<Event>, u: string, n: nat, ch: char)
    requires Measuring(Run(c, log, u), n) && SameRest(c, Run(c, log, u).core) && (IsNum(ch) || ch == ' ')
    requires Run(c, log, u).log == Push(log, Data(ValueData, u))
    ensures var r := Run(c, log, u + [ch]);
            if ch == ' ' then
              Measuring(r, n) && SameRest(c, r.core) && r.log == Push(log, Data(ValueData, u + [ch]))
            else if n <= Limit(10) then
              Measuring(r, n * 10 + Unhex(ch)) && SameRest(c, r.core) && r.log == Push(log, Data(ValueData, u + [ch]))
            else r.end == Failed(InvalidContentLength)
  {
    hide Run, Byte, Unhex, Limit, Push, Say, IsNum;
    var r := Run(c, log, u);
    RunSnoc(c, log, u, ch);
    LengthNext(r.core, r.log, ch);
    HttpMarks.SayOn(log, ValueData, u, ch);
    if ch != ' ' {
      DigitValue(ch);
      if n <= Limit(10) {
        LimitIsSafe(10, n, Digit(ch));
      }
    }
  }

  lemma {:induction false} LengthStart(c: Core, log: seq<Event>, ch: char)
    requires c.state == InHeader(DiscardWs) && c.hstate == ContentLength && IsNum(ch)
    ensures var r := Run(c, log, [ch]);
            Measuring(r, Unhex(ch)) && SameRest(c, r.core) && r.log == Push(log, Data(ValueData, [ch]))
  {
    hide Run, Byte, Unhex, Push;
    RunSnoc(c, log, [], ch);
    RunNothing(c, log);
    LengthFirst(c, log, ch);
    DigitValue(ch);
    assert [] + [ch] == [ch];
  }

  /** An unfolded Content-Length value is refused exactly when the number its digits but the last
      write is above the threshold; otherwise the number stored is the one written, and it is not
      the sentinel. */
  lemma {:induction false} ContentLengthExact(c: Core, log: seq<Event>, v: string)
    requires c.state == InHeader(DiscardWs) && c.hstate == ContentLength && IsLengthText(v)
    ensures Digits(v) != []
    ensures var r := Run(c, log, v);
            if Number(10, ButLast(Digits(v))) <= Limit(10) then
              Measuring(r, Number(10, Digits(v))) && SameRest(c, r.core) && r.log == Push(log, Data(ValueData, v))
            else r.end == Failed(InvalidContentLength)
    decreases |v|
  {
    hide Run, Unhex, Limit, Number, Digits, Push, IsNum, Measuring, SameRest;
    DigitsOf(v);
    var ch := v[|v| - 1];
    var u := v[..|v| - 1];
    assert v == u + [ch];
    DigitsSnoc(u, ch);
    if u == [] {
      assert v == [ch] && Digits(v) == [ch];
      LengthStart(c, log, ch);
      OneDigit(ch);
    } else {
      ContentLengthExact(c, log, u);
      var ds := Digits(u);
      if Number(10, ButLast(ds)) > Limit(10) {
        RunSnoc(c, log, u, ch);
      } else {
        LengthStep(c, log, u, Number(10, ds), ch);
      }
      if ch != ' ' {
        MoreDigits(ds, ch);
      }
    }
  }

  lemma {:induction false} OneDigit(ch: char)
    requires IsNum(ch)
    ensures Number(10, ButLast([ch])) == 0 <= Limit(10) && Number(10, [ch]) == Unhex(ch)
  {
    assert ButLast([ch]) == [] && [] + [ch] == [ch];
    ValueSnoc(10, [], ch);
  }

  lemma {:induction false} MoreDigits(ds: string, ch: char)
    requires ds != [] && IsNum(ch)
    ensures ButLast(ds + [ch]) == ds && Number(10, ds + [ch]) == Number(10, ds) * 10 + Unhex(ch)
    ensures Number(10, ButLast(ds)) <= Number(10, ds)
  {
    ValueSnoc(10, ds, ch);
    ValueGrows(10, ds);
  }

  lemma {:induction false} DigitsSnoc(u: string, ch: char)
    ensures Digits(u + [ch]) == if ch == ' ' then Digits(u) else Digits(u) + [ch]
    ensures Digits([]) == []
  {
    assert (u + [ch])[..|u|] == u;
  }

  // Writing numbers.

  function DigitOf(d: nat): char
    requires d < 16
  {
    if d < 10 then (d + '0' as int) as char else (d - 10 + 'a' as int) as char
  }

  /** The digits of n, most significant first. */
  function Written(base: nat, n: nat): string
    requires 2 <= base <= 16
    decreases n
  {
    if n < base then [DigitOf(n)] else Written(base, n / base) + [DigitOf(n % base)]
  }

  lemma DigitOfOk(d: nat)
    requires d < 16
    ensures Unhex(DigitOf(d)) == d && (d < 10 ==> IsNum(DigitOf(d)))
  {
  }

  lemma {:induction false} DivMod(base: nat, n: nat)
    requires base == 10 || base == 16
    ensures n % base < 16 && (base == 10 ==> n % base < 10) && n / base * base + n % base == n
    ensures n < base ==> n / base == 0
  {
    if base == 10 {
      assert n / 10 * 10 + n % 10 == n;
    } else {
      assert n / 16 * 16 + n % 16 == n;
    }
  }

  lemma {:induction false} WrittenSmall(base: nat, n: nat)
    requires (base == 10 || base == 16) && n < base
    ensures Written(base, n) == [DigitOf(n)] && Number(base, [DigitOf(n)]) == n
            && Number(base, ButLast([DigitOf(n)])) == 0
  {
    hide Unhex, DigitOf;
    DigitOfOk(n);
    assert ButLast([DigitOf(n)]) == [] && [] + [DigitOf(n)] == [DigitOf(n)];
    ValueSnoc(base, [], DigitOf(n));
  }

  /** A written number reads back as itself. */
  lemma {:induction false} WrittenOk(base: nat, n: nat)
    requires base == 10 || base == 16
    ensures var ds := Written(base, n);
            ds != [] && Number(base, ds) == n && Number(base, ButLast(ds)) == n / base
            && IsHexadecimal(ds) && (base == 10 ==> IsDecimal(ds))
    decreases n
  {
    hide Unhex, IsNum, Number, DigitOf;
    DivMod(base, n);
    if n < base {
      WrittenSmall(base, n);
      DigitOfOk(n);
    } else {
      WrittenOk(base, n / base);
      WrittenLast(base, n / base, n % base);
    }
  }

  lemma {:induction false} WrittenLast(base: nat, m: nat, d: nat)
    requires 2 <= base <= 16 && d < base
    requires IsHexadecimal(Written(base, m)) && (base == 10 ==> IsDecimal(Written(base, m)))
    ensures var ds := Written(base, m) + [DigitOf(d)];
            Number(base, ds) == Number(base, Written(base, m)) * base + d && ButLast(ds) == Written(base, m)
            && IsHexadecimal(ds) && (base == 10 ==> IsDecimal(ds))
  {
    hide Unhex, IsNum, Number, DigitOf, Written;
    DigitOfOk(d);
    ValueSnoc(base, Written(base, m), DigitOf(d));
  }

  function Power(base: nat, k: nat): nat { if k == 0 then 1 else base * Power(base, k - 1) }

  /** A number below 16 to the k has at most k hexadecimal digits. */
  lemma {:induction false} WrittenShort(n: nat, k: nat)
    requires 1 <= k && n < Power(16, k)
    ensures |Written(16, n)| <= k
    decreases k
  {
    hide DigitOf;
    if n >= 16 {
      assert n / 16 < Power(16, k - 1);
      WrittenShort(n / 16, k - 1);
    }
  }

  lemma {:induction false} SixteenDigits()
    ensures Power(16, 16) == U64
  {
    assert Power(16, 4) == 0x1_0000;
    assert Power(16, 8) == 0x1_0000_0000;
    assert Power(16, 12) == 0x1_0000_0000_0000;
  }
}

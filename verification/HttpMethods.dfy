/** Request methods: the guess-and-revise matcher recognises exactly the 27 method names. */
module HttpMethods {
  import opened Common
  import opened HttpTypes
  import opened HttpChars
  import opened HttpSpec

  /** The method guessed after the first i octets of the name of m. */
  function Guess(m: Method, i: nat): Method {
    match m
    case Checkout => if i <= 1 then Connect else m
    case Copy => if i <= 2 then Connect else m
    case Move => if i <= 1 then MkCol else m
    case Merge => if i <= 1 then MkCol else m
    case MSearch => if i <= 1 then MkCol else m
    case MkActivity => if i <= 2 then MkCol else m
    case MkCalendar => if i <= 3 then MkCol else m
    case Search => if i <= 1 then Subscribe else m
    case Put => if i <= 1 then Post else m
    case Patch => if i <= 1 then Post else m
    case PropFind => if i <= 1 then Post else m
    case PropPatch => if i <= 1 then Post else if i <= 4 then PropFind else m
    case Purge => if i <= 1 then Post else if i == 2 then Put else m
    case Unsubscribe => if i <= 2 then Unlock else m
    case _ => m
  }

  lemma {:induction false} GuessNext(m: Method, i: nat)
    requires 1 <= i < |MethodString(m)|
    ensures var g, ch := Guess(m, i), MethodString(m)[i];
            ch != '\0' && ch != ' ' && i <= |MethodString(g)|
            && if ch == At(MethodString(g), i) then Guess(m, i + 1) == g
               else ReviseMethod(g, i, ch) == Some(Guess(m, i + 1))
  {
    if i <= 4 {
      GuessEarly(m, i);
    } else {
      NameOctets(m, i);
    }
  }

  lemma {:induction false} NameOctets(m: Method, i: nat)
    requires i < |MethodString(m)|
    ensures 2 <= |MethodString(m)| <= 11
    ensures MethodString(m)[i] != '\0' && MethodString(m)[i] != ' '
  {
  }

  lemma {:induction false} GuessEarly(m: Method, i: nat)
    requires 1 <= i <= 4 && i < |MethodString(m)|
    ensures var g, ch := Guess(m, i), MethodString(m)[i];
            ch != '\0' && ch != ' ' && i <= |MethodString(g)|
            && if ch == At(MethodString(g), i) then Guess(m, i + 1) == g
               else ReviseMethod(g, i, ch) == Some(Guess(m, i + 1))
  {
    NameOctets(m, i);
  }

  /** A revision keeps the octets already read. */
  lemma {:induction false} ReviseKeeps(m: Method, i: nat, ch: char)
    requires i <= |MethodString(m)| && ReviseMethod(m, i, ch).Some?
    ensures var m' := ReviseMethod(m, i, ch).value;
            i < |MethodString(m')| && MethodString(m')[..i] == MethodString(m)[..i] && MethodString(m')[i] == ch
  {
  }

  /** The parser is i octets into a method it takes to be m. */
  predicate Naming(c0: Core, log: seq<Event>, r: Result, m: Method, i: nat) {
    && r.end.More? && r.rest == [] && r.core.state == InMethod && r.core.verb == m && r.core.index == i
    && r.core.flags == NO_FLAGS && r.core.length == NO_LENGTH && r.core.kind == c0.kind
    && r.log == Push(log, MessageBegin)
  }

  lemma {:induction false} FirstOctet(c: Core, log: seq<Event>, ch: char)
    requires c.state == Start(StartReq) && ch != CR && ch != LF
    ensures var r := Run(c, log, [ch]);
            match FirstMethod(ch)
            case Some(m) => Naming(c, log, r, m, 1) && MethodString(m)[..1] == [ch]
            case None => r.end.Failed?
  {
    hide Push;
    var r := Byte(c, log, ch);
    assert [ch][1..] == [];
    if r.end.More? {
      assert Run(r.core, r.log, []) == Result(r.core, r.log, [], More);
    }
  }

  lemma {:induction false} NextOctet(c: Core, log: seq<Event>, s: string, m: Method, ch: char)
    requires Naming(c, log, Run(c, log, s), m, |s|) && |s| <= |MethodString(m)| <= 11
    requires ch != ' '
    ensures var r := Run(c, log, s + [ch]);
            if ch == '\0' then r.end.Failed?
            else if ch == At(MethodString(m), |s|) then Naming(c, log, r, m, |s| + 1)
            else match ReviseMethod(m, |s|, ch)
                 case Some(m') => Naming(c, log, r, m', |s| + 1)
                 case None => r.end.Failed?
  {
    hide Push, ReviseMethod, MethodString;
    var r := Run(c, log, s);
    RunConcat(c, log, s, [ch]);
    RunHere(r.core, r.log, [ch], 0);
    assert [ch][0..] == [ch] && [ch][1..] == [];
    InMethodOctet(r.core, r.log, ch);
    var b := Byte(r.core, r.log, ch);
    RunNothing(b.core, b.log);
  }

  lemma {:induction false} RunNothing(c: Core, log: seq<Event>)
    ensures Run(c, log, []) == Result(c, log, [], More)
  {
    hide Byte;
  }

  lemma {:induction false} InMethodOctet(c: Core, log: seq<Event>, ch: char)
    requires c.state == InMethod && c.index < 255
    ensures var b, c' := Byte(c, log, ch), c.(tally := c.tally + 1, index := c.index + 1);
            var want := At(MethodString(c.verb), c.index);
            if ch == '\0' then b.end == Failed(InvalidMethod)
            else if ch == ' ' && want == '\0' then b == Go(c'.(state := InUrl(SpacesBeforeUrl)), log)
            else if ch == want then b == Go(c', log)
            else match ReviseMethod(c.verb, c.index, ch)
                 case Some(m) => b == Go(c'.(verb := m), log)
                 case None => b.end == Failed(InvalidMethod)
  {
    hide ReviseMethod, MethodString;
  }

  /** Whatever has been accepted as a method so far is the beginning of a method name. */
  lemma {:induction false} MethodSound(c: Core, log: seq<Event>, s: string)
    requires c.state == Start(StartReq) && s != [] && s[0] != CR && s[0] != LF && ' ' !in s
    ensures var r := Run(c, log, s);
            r.end.More? ==> Naming(c, log, r, r.core.verb, |s|) && |s| <= |MethodString(r.core.verb)|
                            && s == MethodString(r.core.verb)[..|s|]
    decreases |s|
  {
    hide Push, ReviseMethod, MethodString, Run;
    if |s| == 1 {
      assert s == [s[0]];
      FirstOctet(c, log, s[0]);
      NameLength(Run(c, log, s).core.verb);
    } else {
      var u, ch := s[..|s| - 1], s[|s| - 1];
      assert s == u + [ch] && ch in s && u[0] == s[0];
      MethodSound(c, log, u);
      RunConcat(c, log, u, [ch]);
      var r := Run(c, log, u);
      if r.end.More? {
        var m := r.core.verb;
        NameLength(m);
        NextOctet(c, log, u, m, ch);
        if ch == At(MethodString(m), |u|) {
          if ch != '\0' {
            assert |u| < |MethodString(m)|;
            assert MethodString(m)[..|u| + 1] == MethodString(m)[..|u|] + [ch];
          }
        } else if ReviseMethod(m, |u|, ch).Some? {
          ReviseKeeps(m, |u|, ch);
          var m' := ReviseMethod(m, |u|, ch).value;
          assert MethodString(m')[..|u| + 1] == MethodString(m')[..|u|] + [ch];
        }
      }
    }
  }

  lemma {:induction false} NameLength(m: Method)
    ensures 2 <= |MethodString(m)| <= 11
    ensures var n := MethodString(m); n[0] != CR && n[0] != LF && n[0] != ' ' && FirstMethod(n[0]) == Some(Guess(m, 1))
  {
  }

  /** Every method name is accepted, octet by octet. */
  lemma {:induction false} MethodComplete(c: Core, log: seq<Event>, m: Method, i: nat)
    requires c.state == Start(StartReq) && 1 <= i <= |MethodString(m)|
    ensures Naming(c, log, Run(c, log, MethodString(m)[..i]), Guess(m, i), i) && i <= |MethodString(Guess(m, i))|
    decreases i
  {
    hide Push, ReviseMethod, MethodString, Run, Guess;
    var name := MethodString(m);
    NameLength(m);
    if i == 1 {
      assert name[..1] == [name[0]];
      FirstOctet(c, log, name[0]);
      NameLength(Guess(m, 1));
    } else {
      MethodComplete(c, log, m, i - 1);
      GuessNext(m, i - 1);
      var g, ch := Guess(m, i - 1), name[i - 1];
      NameLength(g);
      assert name[..i] == name[..i - 1] + [ch];
      NextOctet(c, log, name[..i - 1], g, ch);
      if ch != At(MethodString(g), i - 1) {
        ReviseKeeps(g, i - 1, ch);
      }
    }
  }

  lemma GuessWhole(m: Method)
    ensures Guess(m, |MethodString(m)|) == m
  {
  }

  /** A word followed by a space is accepted as a method exactly when it is one of the 27 names,
      and then it is the method that is recorded. */
  lemma {:induction false} MethodsRecognised(c: Core, log: seq<Event>, word: string)
    requires c.state == Start(StartReq) && word != [] && word[0] != CR && word[0] != LF && ' ' !in word
    ensures var r := Run(c, log, word + [' ']);
            && (r.end.More? <==> exists m :: word == MethodString(m))
            && (forall m :: word == MethodString(m) ==>
                  r.core.verb == m && r.core.state == InUrl(SpacesBeforeUrl) && r.log == Push(log, MessageBegin)
                  && r.core.flags == NO_FLAGS && r.core.length == NO_LENGTH && r.core.kind == c.kind && r.rest == [])
  {
    hide Push, ReviseMethod, MethodString, Run, Guess, Byte;
    var r := Run(c, log, word);
    RunConcat(c, log, word, [' ']);
    MethodSound(c, log, word);
    forall m | word == MethodString(m)
      ensures Naming(c, log, r, m, |word|)
    {
      NameLength(m);
      MethodComplete(c, log, m, |word|);
      GuessWhole(m);
      assert MethodString(m)[..|word|] == word;
    }
    if r.end.More? {
      WordEnds(r.core, r.log, word);
    }
  }

  lemma {:induction false} WordEnds(c: Core, log: seq<Event>, word: string)
    requires c.state == InMethod && c.index == |word| <= |MethodString(c.verb)|
             && word == MethodString(c.verb)[..|word|]
    ensures var r := Run(c, log, [' ']);
            && (r.end.More? <==> word == MethodString(c.verb))
            && (r.end.More? ==>
               r == Result(c.(tally := c.tally + 1, index := c.index + 1, state := InUrl(SpacesBeforeUrl)), log, [],
                 More))
  {
    hide ReviseMethod, MethodString, Run;
    NameLength(c.verb);
    RunHere(c, log, [' '], 0);
    assert [' '][0..] == [' '] && [' '][1..] == [];
    InMethodOctet(c, log, ' ');
    var b := Byte(c, log, ' ');
    RunNothing(b.core, b.log);
    NoSpaces(c.verb, c.index);
    if |word| == |MethodString(c.verb)| {
      assert MethodString(c.verb)[..|word|] == MethodString(c.verb);
    }
  }

  /** No method name contains a space or a NUL, and no revision is prompted by a space. */
  lemma {:induction false} NoSpaces(m: Method, i: nat)
    ensures i < |MethodString(m)| ==> MethodString(m)[i] != '\0' && MethodString(m)[i] != ' '
    ensures ReviseMethod(m, i, ' ').None?
  {
    hide MethodString;
    if i < |MethodString(m)| {
      NameOctets(m, i);
    }
  }
}

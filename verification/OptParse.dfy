/**
  The argument parser (`packages/optparse-latest/optparse.c`): options are returned one per call while the argument
  vector is permuted in place, one recursive call per non-option that is skipped.

  `Reference` reads a whole argument list by the rules of section 12.2 of the Base Definitions volume of POSIX.1-2017;
  the lemmas show that calling the parser until it is done means exactly that, with and without permutation.
 */
module OptParse {
  import opened Common

  datatype Kind = Invalid | NoArg | Required | Optional

  /** An option and its argument, as one call returns them. */
  datatype Opt = Opt(c: char, arg: Option<string>)

  datatype Result = Done | Found(opt: Opt) | Bad(c: char)

  predicate IsDashDash(arg: string) {
    arg == "--"
  }

  predicate IsShortOpt(arg: string) {
    |arg| > 1 && arg[0] == '-' && arg[1] != '-'
  }

  /** `optparse_argtype` */
  function KindOf(optstring: string, c: char): Kind {
    if c == ':' || optstring == [] then Invalid
    else if optstring[0] != c then KindOf(optstring[1..], c)
    else if |optstring| > 1 && optstring[1] == ':' then
      if |optstring| > 2 && optstring[2] == ':' then Optional else Required
    else NoArg
  }

  /** A character is no option exactly when it is the colon or does not occur. */
  lemma {:induction false} KindInvalid(optstring: string, c: char)
    ensures KindOf(optstring, c).Invalid? <==> c == ':' || c !in optstring
  {
    if c != ':' && optstring != [] && optstring[0] != c {
      KindInvalid(optstring[1..], c);
      assert optstring == [optstring[0]] + optstring[1..];
    }
  }

  /** One colon behind the first occurrence asks for an argument, two allow one. */
  lemma {:induction false} KindIs(optstring: string, c: char, i: nat)
    requires i < |optstring| && optstring[i] == c != ':' && c !in optstring[..i]
    ensures var colon, second := i + 1 < |optstring| && optstring[i + 1] == ':', i + 2 < |optstring| && optstring[i + 2] == ':';
      KindOf(optstring, c) == if !colon then NoArg else if second then Optional else Required
    decreases i
  {
    if i > 0 {
      assert optstring[..i][0] == optstring[0] && optstring[1..][..i - 1] == optstring[..i][1..];
      KindIs(optstring[1..], c, i - 1);
    }
  }

  // ---------------------------------------------------------------------------------------------
  // What an argument list means

  /** A bundle read to its end: its options, how many of the following arguments it uses, and whether it is correct. */
  datatype Bundled = Bundled(opts: seq<Opt>, used: nat, ok: bool)

  function Bundle(arg: string, i: nat, tail: seq<string>, optstring: string): (b: Bundled)
    requires i < |arg|
    ensures b.used <= |tail|
    decreases |arg| - i
  {
    var c, more := arg[i], i + 1 < |arg|;
    match KindOf(optstring, c)
    case Invalid => Bundled([], 0, false)
    case NoArg =>
      if more then var b := Bundle(arg, i + 1, tail, optstring); b.(opts := [Opt(c, None)] + b.opts)
      else Bundled([Opt(c, None)], 0, true)
    case Required =>
      if more then Bundled([Opt(c, Some(arg[i + 1..]))], 0, true)
      else if tail != [] then Bundled([Opt(c, Some(tail[0]))], 1, true)
      else Bundled([], 0, false)
    case Optional => Bundled([Opt(c, if more then Some(arg[i + 1..]) else None)], 0, true)
  }

  /** The options of the characters from `i` up to `k`, without arguments. */
  function Flags(arg: string, i: nat, k: nat): (r: seq<Opt>)
    requires i <= k <= |arg|
  {
    seq(k - i, j requires 0 <= j < k - i => Opt(arg[i + j], None))
  }

  /**
    How a bundle is read: options without arguments up to its end, or up to the first other character `k`. If that one
    takes an argument, it is what follows in the bundle, or for a required one at the end of the bundle the next argument.
   */
  lemma {:induction false} BundleIs(arg: string, i: nat, tail: seq<string>, optstring: string, k: nat)
    requires i < |arg| && i <= k <= |arg| && forall j :: i <= j < k ==> KindOf(optstring, arg[j]).NoArg?
    requires k < |arg| ==> !KindOf(optstring, arg[k]).NoArg?
    ensures var b, flags := Bundle(arg, i, tail, optstring), Flags(arg, i, k);
      if k == |arg| then b == Bundled(flags, 0, true)
      else
        var kind, c, rest := KindOf(optstring, arg[k]), arg[k], arg[k + 1..];
        if kind.Invalid? || (kind.Required? && rest == [] && tail == []) then b == Bundled(flags, 0, false)
        else if kind.Optional? && rest == [] then b == Bundled(flags + [Opt(c, None)], 0, true)
        else if rest != [] then b == Bundled(flags + [Opt(c, Some(rest))], 0, true)
        else b == Bundled(flags + [Opt(c, Some(tail[0]))], 1, true)
    decreases |arg| - i
  {
    if i < k {
      assert KindOf(optstring, arg[i]).NoArg?;
      assert Flags(arg, i, k) == [Opt(arg[i], None)] + Flags(arg, i + 1, k);
      if i + 1 < |arg| {
        BundleIs(arg, i + 1, tail, optstring, k);
      }
    }
  }

  /** The options, the arguments that belong to options (up to `--`), the other arguments, and whether all is correct. */
  datatype Meaning = Meaning(opts: seq<Opt>, front: seq<string>, back: seq<string>, ok: bool)

  /** Reads `args`, whose first bundle has already been read up to its character `sub`. */
  function Reference(args: seq<string>, sub: nat, optstring: string): Meaning
    decreases |args|
  {
    if args == [] then Meaning([], [], [], true)
    else
      var arg, tail := args[0], args[1..];
      if IsDashDash(arg) then Meaning([], [arg], tail, true)
      else if !IsShortOpt(arg) then
        var m := Reference(tail, sub, optstring);
        m.(back := [arg] + m.back)
      else if sub + 1 >= |arg| then Meaning([], [], args, false)
      else
        var b := Bundle(arg, sub + 1, tail, optstring);
        if !b.ok then Meaning(b.opts, [], args, false)
        else
          var m := Reference(tail[b.used..], 0, optstring);
          Meaning(b.opts + m.opts, [arg] + tail[..b.used] + m.front, m.back, m.ok)
  }

  /** `s` is made up of `front` and `back`, each in its own order. */
  ghost predicate IsMerge(s: seq<string>, front: seq<string>, back: seq<string>)
    decreases |s|
  {
    if s == [] then front == [] && back == []
    else
      || (front != [] && front[0] == s[0] && IsMerge(s[1..], front[1..], back))
      || (back != [] && back[0] == s[0] && IsMerge(s[1..], front, back[1..]))
  }

  lemma {:induction false} MergeBack(s: seq<string>)
    ensures IsMerge(s, [], s)
    decreases |s|
  {
    if s != [] {
      MergeBack(s[1..]);
    }
  }

  lemma MergeFront(s: seq<string>, front: seq<string>, back: seq<string>, x: string)
    requires IsMerge(s, front, back)
    ensures IsMerge([x] + s, [x] + front, back) && IsMerge([x] + s, front, [x] + back)
  {
    assert ([x] + s)[1..] == s && ([x] + front)[1..] == front && ([x] + back)[1..] == back;
  }

  /** A bundle and the argument that it may use go in front. */
  lemma MergeBundle(arg: string, tail: seq<string>, used: nat, front: seq<string>, back: seq<string>)
    requires used <= 1 && used <= |tail| && IsMerge(tail[used..], front, back)
    ensures IsMerge([arg] + tail, [arg] + tail[..used] + front, back)
  {
    if used == 1 {
      MergeFront(tail[1..], front, back, tail[0]);
      assert [tail[0]] + tail[1..] == tail && tail[..1] == [tail[0]];
      MergeFront(tail, [tail[0]] + front, back, arg);
      assert [arg] + ([tail[0]] + front) == [arg] + tail[..1] + front;
    } else {
      assert tail[0..] == tail && [arg] + tail[..0] + front == [arg] + front;
      MergeFront(tail, front, back, arg);
    }
  }

  /** The arguments are only sorted, stably, into those of options and the others. */
  lemma {:induction false} ReferenceMerges(args: seq<string>, sub: nat, optstring: string)
    ensures var m := Reference(args, sub, optstring); IsMerge(args, m.front, m.back)
    decreases |args|
  {
    if args != [] {
      var arg, tail := args[0], args[1..];
      assert args == [arg] + tail;
      if IsDashDash(arg) {
        MergeBack(tail);
        MergeFront(tail, [], tail, arg);
      } else if !IsShortOpt(arg) {
        ReferenceMerges(tail, sub, optstring);
        var m := Reference(tail, sub, optstring);
        MergeFront(tail, m.front, m.back, arg);
      } else if sub + 1 >= |arg| || !Bundle(arg, sub + 1, tail, optstring).ok {
        MergeBack(args);
      } else {
        var b := Bundle(arg, sub + 1, tail, optstring);
        var m := Reference(tail[b.used..], 0, optstring);
        ReferenceMerges(tail[b.used..], 0, optstring);
        BundleUses(arg, sub + 1, tail, optstring);
        MergeBundle(arg, tail, b.used, m.front, m.back);
      }
    }
  }

  lemma {:induction false} BundleUses(arg: string, i: nat, tail: seq<string>, optstring: string)
    requires i < |arg|
    ensures Bundle(arg, i, tail, optstring).used <= 1
    decreases |arg| - i
  {
    if KindOf(optstring, arg[i]).NoArg? && i + 1 < |arg| {
      BundleUses(arg, i + 1, tail, optstring);
    }
  }

  lemma {:induction false} MergeMultiset(s: seq<string>, front: seq<string>, back: seq<string>)
    requires IsMerge(s, front, back)
    ensures multiset(front + back) == multiset(s)
    decreases |s|
  {
    if s != [] {
      assert s == [s[0]] + s[1..];
      if front != [] && front[0] == s[0] && IsMerge(s[1..], front[1..], back) {
        MergeMultiset(s[1..], front[1..], back);
        assert front == [front[0]] + front[1..];
      } else {
        MergeMultiset(s[1..], front, back[1..]);
        assert back == [back[0]] + back[1..];
      }
    }
  }

  // ---------------------------------------------------------------------------------------------
  // One call

  /** The parser; `argv` ends where the source has its null pointer. */
  datatype Parser = Parser(argv: seq<string>, optind: nat, subopt: nat, permute: bool)

  /** What one call does to the arguments ahead: the part that moves behind `optind`, and what stays ahead. */
  datatype Stepped = Stepped(result: Result, moved: seq<string>, rest: seq<string>, sub: nat)

  function ShortStep(args: seq<string>, sub: nat, optstring: string): Stepped
    requires args != [] && sub + 1 < |args[0]|
  {
    var arg, tail := args[0], args[1..];
    var c, more := arg[sub + 1], sub + 2 < |arg|;
    match KindOf(optstring, c)
    case Invalid => Stepped(Bad(c), [arg], tail, sub)
    case NoArg =>
      if more then Stepped(Found(Opt(c, None)), [], args, sub + 1) else Stepped(Found(Opt(c, None)), [arg], tail, 0)
    case Required =>
      if more then Stepped(Found(Opt(c, Some(arg[sub + 2..]))), [arg], tail, 0)
      else if tail != [] then Stepped(Found(Opt(c, Some(tail[0]))), [arg, tail[0]], tail[1..], 0)
      else Stepped(Bad(c), [arg], tail, 0)
    case Optional => Stepped(Found(Opt(c, if more then Some(arg[sub + 2..]) else None)), [arg], tail, 0)
  }

  /** The first bundle ahead, behind any number of non-options, has a character to read after `sub`. */
  predicate SubOk(args: seq<string>, sub: nat)
    decreases |args|
  {
    if args == [] || IsDashDash(args[0]) then sub == 0
    else if IsShortOpt(args[0]) then sub + 1 < |args[0]|
    else SubOk(args[1..], sub)
  }

  function StepOf(args: seq<string>, sub: nat, optstring: string, permute: bool): Stepped
    requires SubOk(args, sub)
    decreases |args|
  {
    if args == [] then Stepped(Done, [], [], sub)
    else if IsDashDash(args[0]) then Stepped(Done, [args[0]], args[1..], sub)
    else if IsShortOpt(args[0]) then ShortStep(args, sub, optstring)
    else if !permute then Stepped(Done, [], args, sub)
    else var s := StepOf(args[1..], sub, optstring, permute); s.(rest := [args[0]] + s.rest)
  }

  /** `optparse_permute`: the argument at `index` goes behind the ones read since. */
  function Rotate(argv: seq<string>, index: nat, optind: nat): seq<string>
    requires index < optind <= |argv|
  {
    argv[..index] + argv[index + 1..optind] + [argv[index]] + argv[optind..]
  }

  ghost predicate Ready(p: Parser) {
    p.optind <= |p.argv| && SubOk(p.argv[p.optind..], p.subopt)
  }

  /** The parser after reading one option character at `optind`. */
  function ShortCall(p: Parser, optstring: string): (r: (Parser, Result))
    requires p.optind < |p.argv| && p.subopt + 1 < |p.argv[p.optind]|
    ensures p.optind <= r.0.optind <= |p.argv| && r.0.argv == p.argv
  {
    var arg, next := p.argv[p.optind], p.optind + 1;
    var c, more := arg[p.subopt + 1], p.subopt + 2 < |arg|;
    match KindOf(optstring, c)
    case Invalid => (p.(optind := next), Bad(c))
    case NoArg => (if more then p.(subopt := p.subopt + 1) else p.(subopt := 0, optind := next), Found(Opt(c, None)))
    case Required =>
      if more then (p.(subopt := 0, optind := next), Found(Opt(c, Some(arg[p.subopt + 2..]))))
      else if next < |p.argv| then (p.(subopt := 0, optind := next + 1), Found(Opt(c, Some(p.argv[next]))))
      else (p.(subopt := 0, optind := next), Bad(c))
    case Optional => (p.(subopt := 0, optind := next), Found(Opt(c, if more then Some(arg[p.subopt + 2..]) else None)))
  }

  /** `optparse` */
  function Call(p: Parser, optstring: string): (r: (Parser, Result))
    requires Ready(p)
    ensures p.optind <= r.0.optind <= |r.0.argv| == |p.argv|
    decreases |p.argv| - p.optind
  {
    if p.optind == |p.argv| then (p, Done)
    else
      var arg := p.argv[p.optind];
      assert p.argv[p.optind..][1..] == p.argv[p.optind + 1..];
      if IsDashDash(arg) then (p.(optind := p.optind + 1), Done)
      else if IsShortOpt(arg) then ShortCall(p, optstring)
      else if !p.permute then (p, Done)
      else
        var r := Call(p.(optind := p.optind + 1), optstring);
        (r.0.(argv := Rotate(r.0.argv, p.optind, r.0.optind), optind := r.0.optind - 1), r.1)
  }

  /** A non-option is skipped, and ends up behind what was read after it. */
  lemma CallSkips(p: Parser, optstring: string)
    requires Ready(p) && p.permute && p.optind < |p.argv| && !IsDashDash(p.argv[p.optind]) && !IsShortOpt(p.argv[p.optind])
    ensures var next := p.(optind := p.optind + 1);
      && Ready(next)
      && var (q, result) := Call(next, optstring);
      Call(p, optstring) == (q.(argv := Rotate(q.argv, p.optind, q.optind), optind := q.optind - 1), result)
  {
    assert p.argv[p.optind..][1..] == p.argv[p.optind + 1..];
  }

  ghost predicate Matches(p: Parser, r: (Parser, Result), s: Stepped)
    requires p.optind <= |p.argv|
  {
    && r.1 == s.result && r.0.subopt == s.sub && r.0.permute == p.permute
    && r.0.optind == p.optind + |s.moved| && r.0.argv == p.argv[..p.optind] + s.moved + s.rest
  }

  /** Reading an option moves a prefix of what is ahead. */
  lemma ShortStepSplits(args: seq<string>, sub: nat, optstring: string)
    requires args != [] && sub + 1 < |args[0]|
    ensures var s := ShortStep(args, sub, optstring);
            |s.moved| <= |args| && s.moved == args[..|s.moved|] && s.rest == args[|s.moved|..]
  {
  }

  lemma ShortCallCounts(p: Parser, optstring: string)
    requires p.optind < |p.argv| && p.subopt + 1 < |p.argv[p.optind]|
    ensures var r, s := ShortCall(p, optstring), ShortStep(p.argv[p.optind..], p.subopt, optstring);
            && r.1 == s.result && r.0.subopt == s.sub && r.0.permute == p.permute && r.0.optind == p.optind + |s.moved|
  {
  }

  lemma ShortCallIsStep(p: Parser, optstring: string)
    requires p.optind < |p.argv| && p.subopt + 1 < |p.argv[p.optind]|
    ensures Matches(p, ShortCall(p, optstring), ShortStep(p.argv[p.optind..], p.subopt, optstring))
  {
    var args := p.argv[p.optind..];
    var s := ShortStep(args, p.subopt, optstring);
    ShortStepSplits(args, p.subopt, optstring);
    ShortCallCounts(p, optstring);
    assert p.argv == p.argv[..p.optind] + args && args == args[..|s.moved|] + args[|s.moved|..];
  }

  lemma RotateIs(head: seq<string>, x: string, moved: seq<string>, rest: seq<string>)
    ensures Rotate(head + [x] + moved + rest, |head|, |head| + 1 + |moved|) == head + moved + ([x] + rest)
  {
    var argv := head + [x] + moved + rest;
    assert argv[|head| + 1..|head| + 1 + |moved|] == moved;
    assert argv[|head| + 1 + |moved|..] == rest && argv[..|head|] == head;
  }

  lemma SkipIsStep(p: Parser, r: (Parser, Result), s: Stepped)
    requires p.optind < |p.argv| && Matches(p.(optind := p.optind + 1), r, s) && r.0.optind <= |r.0.argv|
    ensures Matches(p, (r.0.(argv := Rotate(r.0.argv, p.optind, r.0.optind), optind := r.0.optind - 1), r.1),
                    s.(rest := [p.argv[p.optind]] + s.rest))
  {
    assert p.argv[..p.optind + 1] == p.argv[..p.optind] + [p.argv[p.optind]];
    RotateIs(p.argv[..p.optind], p.argv[p.optind], s.moved, s.rest);
  }

  /** The recursion with its rotations leaves `argv` as `StepOf` says. */
  lemma {:induction false} CallIsStep(p: Parser, optstring: string)
    requires Ready(p)
    ensures Matches(p, Call(p, optstring), StepOf(p.argv[p.optind..], p.subopt, optstring, p.permute))
    decreases |p.argv| - p.optind
  {
    var args := p.argv[p.optind..];
    assert p.argv == p.argv[..p.optind] + args;
    if args != [] {
      assert args[1..] == p.argv[p.optind + 1..] && args[0] == p.argv[p.optind];
      if IsDashDash(args[0]) {
        assert args == [args[0]] + args[1..];
      } else if IsShortOpt(args[0]) {
        ShortCallIsStep(p, optstring);
      } else if p.permute {
        var q := p.(optind := p.optind + 1);
        CallIsStep(q, optstring);
        SkipIsStep(p, Call(q, optstring), StepOf(args[1..], p.subopt, optstring, p.permute));
      }
    }
  }

  // ---------------------------------------------------------------------------------------------
  // Calling until done

  /** The length of the first bundle ahead. */
  function Pending(args: seq<string>): nat
    decreases |args|
  {
    if args == [] || IsDashDash(args[0]) then 0 else if IsShortOpt(args[0]) then |args[0]| else Pending(args[1..])
  }

  lemma {:induction false} SubOkZero(args: seq<string>)
    ensures SubOk(args, 0)
    decreases |args|
  {
    if args != [] {
      SubOkZero(args[1..]);
    }
  }

  /** Every option found brings the parser forward: in the vector or inside the bundle. */
  lemma {:induction false} StepProgress(args: seq<string>, sub: nat, optstring: string, permute: bool)
    requires SubOk(args, sub) && StepOf(args, sub, optstring, permute).result.Found?
    ensures var s := StepOf(args, sub, optstring, permute);
            && SubOk(s.rest, s.sub)
            && (|s.rest| < |args| || (s.rest == args && s.sub == sub + 1 < Pending(args)))
    decreases |args|
  {
    var s := StepOf(args, sub, optstring, permute);
    if IsShortOpt(args[0]) {
      SubOkZero(args[1..]);
      if |args| > 1 {
        SubOkZero(args[1..][1..]);
      }
    } else {
      StepProgress(args[1..], sub, optstring, permute);
      assert s.rest[1..] == StepOf(args[1..], sub, optstring, permute).rest;
      assert args == [args[0]] + args[1..];
    }
  }

  /** The options that the calls return until one returns -1 (or an error), and what became of the arguments. */
  function Run(args: seq<string>, sub: nat, optstring: string, permute: bool): Meaning
    requires SubOk(args, sub)
    decreases |args|, Pending(args) - sub
  {
    var s := StepOf(args, sub, optstring, permute);
    match s.result
    case Done => Meaning([], s.moved, s.rest, true)
    case Bad(_) => Meaning([], s.moved, s.rest, false)
    case Found(o) =>
      StepProgress(args, sub, optstring, permute);
      var m := Run(s.rest, s.sub, optstring, permute);
      Meaning([o] + m.opts, s.moved + m.front, m.back, m.ok)
  }

  function Prepend(o: Opt, moved: seq<string>, m: Meaning): Meaning {
    Meaning([o] + m.opts, moved + m.front, m.back, m.ok)
  }

  /** One call agrees with the reference reading. */
  ghost predicate Agrees(s: Stepped, m: Meaning, optstring: string) {
    match s.result
    case Done => m == Meaning([], s.moved, s.rest, true)
    case Bad(_) => !m.ok
    case Found(o) =>
      var after := Reference(s.rest, s.sub, optstring);
      m.ok == after.ok && (m.ok ==> m == Prepend(o, s.moved, after))
  }

  lemma InBundleMeans(args: seq<string>, sub: nat, optstring: string)
    requires args != [] && IsShortOpt(args[0]) && sub + 2 < |args[0]| && KindOf(optstring, args[0][sub + 1]).NoArg?
    ensures Agrees(ShortStep(args, sub, optstring), Reference(args, sub, optstring), optstring)
  {
    var arg, tail := args[0], args[1..];
    var o, b := Opt(arg[sub + 1], None), Bundle(arg, sub + 2, tail, optstring);
    assert Bundle(arg, sub + 1, tail, optstring) == b.(opts := [o] + b.opts);
    if b.ok {
      var after := Reference(tail[b.used..], 0, optstring);
      assert ([o] + b.opts) + after.opts == [o] + (b.opts + after.opts);
      assert [] + ([arg] + tail[..b.used] + after.front) == [arg] + tail[..b.used] + after.front;
    }
  }

  lemma LastInBundleMeans(args: seq<string>, sub: nat, optstring: string)
    requires args != [] && IsShortOpt(args[0]) && sub + 1 < |args[0]|
    requires !(KindOf(optstring, args[0][sub + 1]).NoArg? && sub + 2 < |args[0]|)
    ensures Agrees(ShortStep(args, sub, optstring), Reference(args, sub, optstring), optstring)
  {
    var arg, tail := args[0], args[1..];
    assert tail[0..] == tail && tail[..0] == [] && [arg] + [] == [arg];
    if tail != [] {
      assert [arg] + tail[..1] == [arg, tail[0]];
    }
  }

  lemma ShortMeans(args: seq<string>, sub: nat, optstring: string)
    requires args != [] && IsShortOpt(args[0]) && sub + 1 < |args[0]|
    ensures Agrees(ShortStep(args, sub, optstring), Reference(args, sub, optstring), optstring)
  {
    if KindOf(optstring, args[0][sub + 1]).NoArg? && sub + 2 < |args[0]| {
      InBundleMeans(args, sub, optstring);
    } else {
      LastInBundleMeans(args, sub, optstring);
    }
  }

  lemma {:induction false} StepMeans(args: seq<string>, sub: nat, optstring: string)
    requires SubOk(args, sub)
    ensures Agrees(StepOf(args, sub, optstring, true), Reference(args, sub, optstring), optstring)
    decreases |args|
  {
    if args == [] || IsDashDash(args[0]) {
    } else if IsShortOpt(args[0]) {
      ShortMeans(args, sub, optstring);
    } else {
      StepMeans(args[1..], sub, optstring);
      var s := StepOf(args[1..], sub, optstring, true);
      assert ([args[0]] + s.rest)[1..] == s.rest;
    }
  }

  /** Calling the permuting parser until it is done is reading by the reference. */
  lemma {:induction false} RunIsReference(args: seq<string>, sub: nat, optstring: string)
    requires SubOk(args, sub)
    ensures var r, m := Run(args, sub, optstring, true), Reference(args, sub, optstring); r.ok == m.ok && (m.ok ==> r == m)
    decreases |args|, Pending(args) - sub
  {
    StepMeans(args, sub, optstring);
    var s := StepOf(args, sub, optstring, true);
    if s.result.Found? {
      StepProgress(args, sub, optstring, true);
      RunIsReference(s.rest, s.sub, optstring);
    }
  }

  // ---------------------------------------------------------------------------------------------
  // The same without permutation, on the arguments of options alone

  lemma {:induction false} BundleTail(arg: string, i: nat, tail: seq<string>, tail': seq<string>, optstring: string)
    requires i < |arg| && Bundle(arg, i, tail, optstring).ok
    requires var used := Bundle(arg, i, tail, optstring).used; used <= |tail'| && tail'[..used] == tail[..used]
    ensures Bundle(arg, i, tail', optstring) == Bundle(arg, i, tail, optstring)
    decreases |arg| - i
  {
    if KindOf(optstring, arg[i]).NoArg? && i + 1 < |arg| {
      BundleTail(arg, i + 1, tail, tail', optstring);
    } else if KindOf(optstring, arg[i]).Required? && i + 1 == |arg| {
      assert tail'[0] == tail'[..1][0] == tail[..1][0] == tail[0];
    }
  }

  /** With the other arguments removed, the list means the same options and nothing is left over. */
  lemma {:induction false} FrontMeans(args: seq<string>, sub: nat, optstring: string)
    requires SubOk(args, sub) && Reference(args, sub, optstring).ok
    ensures var m := Reference(args, sub, optstring); Reference(m.front, sub, optstring) == Meaning(m.opts, m.front, [], true)
    ensures SubOk(Reference(args, sub, optstring).front, sub)
    decreases |args|
  {
    if args != [] && !IsDashDash(args[0]) {
      var arg, tail := args[0], args[1..];
      if !IsShortOpt(arg) {
        FrontMeans(tail, sub, optstring);
      } else {
        var b := Bundle(arg, sub + 1, tail, optstring);
        SubOkZero(tail[b.used..]);
        FrontMeans(tail[b.used..], 0, optstring);
        var after := Reference(tail[b.used..], 0, optstring);
        var tail' := tail[..b.used] + after.front;
        assert Reference(args, sub, optstring).front == [arg] + tail';
        assert ([arg] + tail')[1..] == tail' && tail'[..b.used] == tail[..b.used] && tail'[b.used..] == after.front;
        BundleTail(arg, sub + 1, tail, tail', optstring);
      }
    }
  }

  /** A list without other arguments is read the same way with permutation switched off. */
  lemma {:induction false} PlainRun(args: seq<string>, sub: nat, optstring: string)
    requires SubOk(args, sub) && Reference(args, sub, optstring).ok && Reference(args, sub, optstring).back == []
    ensures Run(args, sub, optstring, false) == Reference(args, sub, optstring)
    decreases |args|, Pending(args) - sub
  {
    StepMeans(args, sub, optstring);
    var s := StepOf(args, sub, optstring, true);
    assert s == StepOf(args, sub, optstring, false);
    if s.result.Found? {
      StepProgress(args, sub, optstring, true);
      PlainRun(s.rest, s.sub, optstring);
    }
  }

  // ---------------------------------------------------------------------------------------------
  // The parser until it is done

  datatype Driven = Driven(parser: Parser, opts: seq<Opt>, ok: bool)

  lemma CallReady(p: Parser, optstring: string)
    requires Ready(p)
    ensures var r := Call(p, optstring);
            r.1.Found? ==>
              && Ready(r.0)
              && var args, rest := p.argv[p.optind..], r.0.argv[r.0.optind..];
                 |rest| < |args| || (rest == args && r.0.subopt == p.subopt + 1 < Pending(args))
  {
    CallIsStep(p, optstring);
    var r, s := Call(p, optstring), StepOf(p.argv[p.optind..], p.subopt, optstring, p.permute);
    if r.1.Found? {
      StepProgress(p.argv[p.optind..], p.subopt, optstring, p.permute);
      assert r.0.argv[r.0.optind..] == s.rest;
    }
  }

  /** Calls `optparse` until it returns -1 or an error. */
  function Drive(p: Parser, optstring: string): (d: Driven)
    requires Ready(p)
    decreases |p.argv| - p.optind, Pending(p.argv[p.optind..]) - p.subopt
  {
    var r := Call(p, optstring);
    match r.1
    case Done => Driven(r.0, [], true)
    case Bad(_) => Driven(r.0, [], false)
    case Found(o) =>
      CallReady(p, optstring);
      var d := Drive(r.0, optstring);
      d.(opts := [o] + d.opts)
  }

  lemma AfterCall(p: Parser, optstring: string)
    requires Ready(p)
    ensures var r, s := Call(p, optstring), StepOf(p.argv[p.optind..], p.subopt, optstring, p.permute);
            && r.1 == s.result && r.0.subopt == s.sub && r.0.permute == p.permute && r.0.optind == p.optind + |s.moved|
            && r.0.argv[r.0.optind..] == s.rest && r.0.argv[..r.0.optind] == p.argv[..p.optind] + s.moved
            && r.0.argv == p.argv[..p.optind] + s.moved + s.rest
  {
    CallIsStep(p, optstring);
  }

  ghost predicate IsDriven(p: Parser, d: Driven, m: Meaning)
    requires p.optind <= |p.argv|
  {
    && d.opts == m.opts && d.ok == m.ok
    && d.parser.argv == p.argv[..p.optind] + m.front + m.back && d.parser.optind == p.optind + |m.front|
  }

  lemma DrivenFurther(p: Parser, q: Parser, moved: seq<string>, o: Opt, d: Driven, m: Meaning)
    requires p.optind <= |p.argv| && q.optind <= |q.argv| && IsDriven(q, d, m)
    requires q.optind == p.optind + |moved| && q.argv[..q.optind] == p.argv[..p.optind] + moved
    ensures IsDriven(p, d.(opts := [o] + d.opts), Meaning([o] + m.opts, moved + m.front, m.back, m.ok))
  {
    assert p.argv[..p.optind] + moved + m.front == p.argv[..p.optind] + (moved + m.front);
  }

  lemma {:induction false} DriveIsRun(p: Parser, optstring: string)
    requires Ready(p)
    ensures IsDriven(p, Drive(p, optstring), Run(p.argv[p.optind..], p.subopt, optstring, p.permute))
    decreases |p.argv| - p.optind, Pending(p.argv[p.optind..]) - p.subopt
  {
    AfterCall(p, optstring);
    var r, s := Call(p, optstring), StepOf(p.argv[p.optind..], p.subopt, optstring, p.permute);
    if r.1.Found? {
      CallReady(p, optstring);
      DriveIsRun(r.0, optstring);
      DrivenFurther(p, r.0, s.moved, r.1.opt, Drive(r.0, optstring), Run(s.rest, s.sub, optstring, p.permute));
    }
  }

  lemma SamePieces(argv: seq<string>, optind: nat, front: seq<string>, back: seq<string>)
    requires optind <= |argv| && IsMerge(argv[optind..], front, back)
    ensures multiset(argv[..optind] + front + back) == multiset(argv)
  {
    MergeMultiset(argv[optind..], front, back);
    assert argv == argv[..optind] + argv[optind..];
    assert argv[..optind] + front + back == argv[..optind] + (front + back);
  }

  /**
    Parsing with permutation returns what the arguments mean, fails exactly when they are incorrect, and leaves the
    options with their arguments (and `--`) in front of the others, each group in its original order.
   */
  lemma ParsesByReference(p: Parser, optstring: string)
    requires p.optind <= |p.argv| && p.subopt == 0 && p.permute
    ensures Ready(p)
    ensures var m, d := Reference(p.argv[p.optind..], 0, optstring), Drive(p, optstring);
            && d.ok == m.ok
            && (m.ok ==>
                  && d.opts == m.opts
                  && d.parser.argv == p.argv[..p.optind] + m.front + m.back && d.parser.optind == p.optind + |m.front|
                  && IsMerge(p.argv[p.optind..], m.front, m.back)
                  && multiset(d.parser.argv) == multiset(p.argv))
  {
    var args := p.argv[p.optind..];
    SubOkZero(args);
    DriveIsRun(p, optstring);
    RunIsReference(args, 0, optstring);
    var m := Reference(args, 0, optstring);
    ReferenceMerges(args, 0, optstring);
    SamePieces(p.argv, p.optind, m.front, m.back);
  }

  /** The options are those that a plain left-to-right parse finds once the other arguments are removed. */
  lemma SameAsRemoving(p: Parser, optstring: string)
    requires p.optind <= |p.argv| && p.subopt == 0 && p.permute && Reference(p.argv[p.optind..], 0, optstring).ok
    ensures var front := Reference(p.argv[p.optind..], 0, optstring).front; var plain := Parser(front, 0, 0, false);
            && Ready(p) && Ready(plain)
            && Drive(plain, optstring).ok && Drive(plain, optstring).opts == Drive(p, optstring).opts
            && Drive(plain, optstring).parser.argv == front && Drive(plain, optstring).parser.optind == |front|
  {
    var args := p.argv[p.optind..];
    SubOkZero(args);
    ParsesByReference(p, optstring);
    var m := Reference(args, 0, optstring);
    FrontMeans(args, 0, optstring);
    var plain := Parser(m.front, 0, 0, false);
    assert plain.argv[0..] == m.front;
    PlainRun(m.front, 0, optstring);
    DriveIsRun(plain, optstring);
  }

  // ---------------------------------------------------------------------------------------------
  // The parser as the source performs it

  class OptParser {
    const argv: array<string>
    var optind: nat
    var subopt: nat
    const permute: bool
    var optarg: Option<string>

    function Now(): Parser
      reads this, argv
    {
      Parser(argv[..], optind, subopt, permute)
    }

    /** `optparse_init`: the program name, when there is one, is skipped. */
    constructor (argv: array<string>, permute: bool)
      ensures this.argv == argv && this.permute == permute && Ready(Now())
      ensures optind == (if argv.Length > 0 then 1 else 0) && subopt == 0
    {
      this.argv, this.permute := argv, permute;
      optind := if argv.Length > 0 then 1 else 0;
      subopt, optarg := 0, None;
      new;
      SubOkZero(argv[..][optind..]);
    }

    /** `optparse_argtype` */
    method ArgType(optstring: string, c: char) returns (kind: Kind)
      ensures kind == KindOf(optstring, c)
    {
      if c == ':' {
        return Invalid;
      }
      var i := 0;
      while i < |optstring| && c != optstring[i]
        invariant 0 <= i <= |optstring| && KindOf(optstring[i..], c) == KindOf(optstring, c)
      {
        assert optstring[i..][1..] == optstring[i + 1..];
        i := i + 1;
      }
      if i == |optstring| {
        return Invalid;
      }
      kind := NoArg;
      if i + 1 < |optstring| && optstring[i + 1] == ':' {
        kind := if i + 2 < |optstring| && optstring[i + 2] == ':' then Optional else Required;
      }
    }

    /** `optparse_permute` */
    method Permute(index: nat)
      requires index < optind <= argv.Length
      modifies argv
      ensures argv[..] == Rotate(old(argv[..]), index, optind)
    {
      var nonoption := argv[index];
      var i := index;
      while i < optind - 1
        invariant index <= i <= optind - 1
        invariant forall k :: 0 <= k < index ==> argv[k] == old(argv[k])
        invariant forall k :: index <= k < i ==> argv[k] == old(argv[k + 1])
        invariant forall k :: i <= k < argv.Length ==> argv[k] == old(argv[k])
      {
        argv[i] := argv[i + 1];
        i := i + 1;
      }
      argv[optind - 1] := nonoption;
      ghost var was := old(argv[..]);
      assert argv[..] == was[..index] + was[index + 1..optind] + [was[index]] + was[optind..];
    }

    /** Reads one option character of the bundle at `optind`. */
    method ReadShort(optstring: string) returns (result: Result)
      requires optind < argv.Length && subopt + 1 < |argv[optind]|
      modifies this
      ensures (Now(), result) == ShortCall(old(Now()), optstring)
      ensures result.Found? ==> optarg == result.opt.arg
    {
      var option := argv[optind][subopt + 1..];
      var c, more := option[0], |option| > 1;
      optarg := None;
      var kind := ArgType(optstring, c);
      match kind {
        case Invalid =>
          optind := optind + 1;
          return Bad(c);
        case NoArg =>
          if more {
            subopt := subopt + 1;
          } else {
            subopt := 0;
            optind := optind + 1;
          }
        case Required =>
          subopt := 0;
          optind := optind + 1;
          if more {
            optarg := Some(option[1..]);
          } else if optind < argv.Length {
            optarg := Some(argv[optind]);
            optind := optind + 1;
          } else {
            return Bad(c);
          }
        case Optional =>
          subopt := 0;
          optind := optind + 1;
          if more {
            optarg := Some(option[1..]);
          }
      }
      result := Found(Opt(c, optarg));
    }

    /** `optparse` */
    method Next(optstring: string) returns (result: Result)
      requires Ready(Now())
      modifies this, argv
      ensures (Now(), result) == Call(old(Now()), optstring)
      ensures result.Found? ==> optarg == result.opt.arg
      decreases argv.Length - optind
    {
      if optind == argv.Length {
        return Done;
      }
      var option := argv[optind];
      assert argv[..][optind..][1..] == argv[..][optind + 1..];
      if |option| == 2 && option[0] == '-' && option[1] == '-' {
        optind := optind + 1;
        return Done;
      }
      if |option| < 2 || option[0] != '-' || option[1] == '-' {
        if !permute {
          return Done;
        }
        CallSkips(Now(), optstring);
        var index := optind;
        optind := optind + 1;
        result := Next(optstring);
        Permute(index);
        optind := optind - 1;
        return;
      }
      result := ReadShort(optstring);
    }
  }
}

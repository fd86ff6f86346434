/** The encoder's argument list read as directives.

    After the program name, the encoder reads its arguments left to right: a flag that takes
    no value (`-y`), a flag followed by its value (`-i <file>`, `-map <pad>`, `-t <seconds>`,
    ...), or, for anything that is not a flag, the output file.  `Serialize` writes a list of
    directives as arguments and `Parse` reads them back; the two are inverse on directives
    that use the flags as the encoder defines them. */
module EncoderArgs {
  import opened Util
  import opened Text

  datatype Opt = Switch(name: string) | Set(name: string, value: Str) | Output(path: Str)

  /** The flags the program passes that take no value. */
  const Switches: set<string> := {"-y"}

  /** The flags the program passes that take one value. */
  const Valued: set<string> :=
    {"-i", "-filter_complex", "-map", "-t", "-c:v", "-preset", "-crf", "-c:a", "-b:a", "-r", "-pix_fmt", "-movflags"}

  predicate IsFlag(a: Str)
  {
    Plain(a).Some? && (Plain(a).value in Switches || Plain(a).value in Valued)
  }

  /** A directive the encoder reads back as written. */
  predicate ValidOpt(o: Opt)
  {
    match o
    case Switch(n) => n in Switches
    case Set(n, _) => n in Valued
    case Output(p) => !IsFlag(p)
  }

  function OptArgs(o: Opt): seq<Str>
  {
    match o
    case Switch(n) => [Lit(n)]
    case Set(n, v) => [Lit(n), v]
    case Output(p) => [p]
  }

  function Serialize(opts: seq<Opt>): seq<Str>
  {
    if opts == [] then [] else OptArgs(opts[0]) + Serialize(opts[1..])
  }

  /** How the encoder reads an argument list. */
  function Parse(args: seq<Str>): seq<Opt>
    decreases |args|
  {
    if args == [] then []
    else
      var name := Plain(args[0]);
      if name.Some? && name.value in Valued && |args| >= 2 then [Set(name.value, args[1])] + Parse(args[2..])
      else if name.Some? && name.value in Switches then [Switch(name.value)] + Parse(args[1..])
      else [Output(args[0])] + Parse(args[1..])
  }

  lemma SwitchesNotValued()
    ensures forall n :: n in Switches ==> n !in Valued
  {
    assert "-y"[1] != "-r"[1];
    assert "-y"[1] != "-t"[1];
    assert "-y"[1] != "-i"[1];
  }

  lemma ParseSwitch(n: string, rest: seq<Str>)
    requires n in Switches
    ensures Parse([Lit(n)] + rest) == [Switch(n)] + Parse(rest)
  {
    PlainLit(n);
    SwitchesNotValued();
    assert ([Lit(n)] + rest)[1..] == rest;
  }

  lemma ParseSet(n: string, v: Str, rest: seq<Str>)
    requires n in Valued
    ensures Parse([Lit(n), v] + rest) == [Set(n, v)] + Parse(rest)
  {
    PlainLit(n);
    assert ([Lit(n), v] + rest)[2..] == rest;
  }

  lemma ParseOutput(p: Str, rest: seq<Str>)
    requires !IsFlag(p)
    ensures Parse([p] + rest) == [Output(p)] + Parse(rest)
  {
    assert ([p] + rest)[1..] == rest;
  }

  /** Reading back a written list of directives gives the same directives. */
  lemma {:induction false} ParseSerialize(opts: seq<Opt>)
    requires forall i :: 0 <= i < |opts| ==> ValidOpt(opts[i])
    ensures Parse(Serialize(opts)) == opts
  {
    if opts != [] {
      var rest := Serialize(opts[1..]);
      assert Serialize(opts) == OptArgs(opts[0]) + rest;
      ParseSerialize(opts[1..]);
      assert opts == [opts[0]] + opts[1..];
      match opts[0]
      case Switch(n) => ParseSwitch(n, rest);
      case Set(n, v) => ParseSet(n, v, rest);
      case Output(p) => ParseOutput(p, rest);
    }
  }

  lemma {:induction false} SerializeAppend(a: seq<Opt>, b: seq<Opt>)
    ensures Serialize(a + b) == Serialize(a) + Serialize(b)
  {
    if a == [] {
      assert a + b == b;
    } else {
      assert (a + b)[1..] == a[1..] + b;
      SerializeAppend(a[1..], b);
    }
  }

  /** The value a directive gives to flag `n`, if any. */
  function ValueOf(o: Opt, n: string): seq<Str>
  {
    if o.Set? && o.name == n then [o.value] else []
  }

  /** The values given to flag `n`, in order. */
  function Values(opts: seq<Opt>, n: string): seq<Str>
  {
    if opts == [] then [] else ValueOf(opts[0], n) + Values(opts[1..], n)
  }

  lemma ValuesOne(o: Opt, n: string)
    ensures Values([o], n) == ValueOf(o, n)
  {
    assert [o][1..] == [];
  }

  lemma ValuesTwo(o1: Opt, o2: Opt, n: string)
    ensures Values([o1, o2], n) == ValueOf(o1, n) + ValueOf(o2, n)
  {
    assert [o1, o2][1..] == [o2];
    ValuesOne(o2, n);
  }

  lemma ValuesFour(o1: Opt, o2: Opt, o3: Opt, o4: Opt, n: string)
    ensures Values([o1, o2, o3, o4], n) == ValueOf(o1, n) + ValueOf(o2, n) + ValueOf(o3, n) + ValueOf(o4, n)
  {
    assert [o1, o2, o3, o4] == [o1, o2] + [o3, o4];
    ValuesAppend([o1, o2], [o3, o4], n);
    ValuesTwo(o1, o2, n);
    ValuesTwo(o3, o4, n);
  }

  lemma {:induction false} ValuesAppend(a: seq<Opt>, b: seq<Opt>, n: string)
    ensures Values(a + b, n) == Values(a, n) + Values(b, n)
  {
    if a == [] {
      assert a + b == b;
    } else {
      assert (a + b)[1..] == a[1..] + b;
      ValuesAppend(a[1..], b, n);
    }
  }
}

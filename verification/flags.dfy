/** The command-line flags the application reads, and the count of TLS options set among them. */
module Flags {

  /** The `appFlags` record the CLI parser fills in. `timeout` is a Go duration in nanoseconds. */
  datatype AppFlags = AppFlags(
    timeout: int,
    noFail: bool,
    tls: bool,
    tlsInsecure: bool,
    tlsCAFile: string,
    tlsCAPath: string)

  /** The four mutually exclusive TLS options: --tls, --tls-insecure, --tls-cafile, --tls-capath. */
  datatype TlsOption = TlsSystem | TlsInsecure | TlsCAFile | TlsCAPath

  /** The TLS options in the order in which `countTLSFlags` inspects them. */
  const AllTlsOptions: seq<TlsOption> := [TlsSystem, TlsInsecure, TlsCAFile, TlsCAPath]

  /** Whether `o` is set: a boolean option when true, a path option when non-empty. */
  predicate IsSet(flags: AppFlags, o: TlsOption) {
    match o
    case TlsSystem => flags.tls
    case TlsInsecure => flags.tlsInsecure
    case TlsCAFile => |flags.tlsCAFile| > 0
    case TlsCAPath => |flags.tlsCAPath| > 0
  }

  /** The options of `opts` that are set in `flags`, in order. */
  function SetAmong(opts: seq<TlsOption>, flags: AppFlags): seq<TlsOption> {
    if opts == [] then []
    else if IsSet(flags, opts[0]) then [opts[0]] + SetAmong(opts[1..], flags)
    else SetAmong(opts[1..], flags)
  }

  /** The TLS options set in `flags`; its length is the number `countTLSFlags` returns. */
  function SelectedOptions(flags: AppFlags): seq<TlsOption> {
    SetAmong(AllTlsOptions, flags)
  }

  /** Selection keeps exactly the set options of `opts`, never more of them than `opts` has. */
  lemma {:induction false} SetAmongMembers(opts: seq<TlsOption>, flags: AppFlags)
    ensures forall o :: o in SetAmong(opts, flags) <==> o in opts && IsSet(flags, o)
    ensures |SetAmong(opts, flags)| <= |opts|
  {
    if opts != [] {
      SetAmongMembers(opts[1..], flags);
      assert opts == [opts[0]] + opts[1..];
    }
  }

  /** Selection never lists an option twice when `opts` does not. */
  lemma {:induction false} SetAmongDistinct(opts: seq<TlsOption>, flags: AppFlags)
    requires forall i, j :: 0 <= i < j < |opts| ==> opts[i] != opts[j]
    ensures forall i, j :: 0 <= i < j < |SetAmong(opts, flags)| ==>
      SetAmong(opts, flags)[i] != SetAmong(opts, flags)[j]
  {
    if opts != [] {
      var rest := opts[1..];
      SetAmongDistinct(rest, flags);
      SetAmongMembers(rest, flags);
      assert opts[0] !in rest by {
        forall k | 0 <= k < |rest| ensures rest[k] != opts[0] {
          assert rest[k] == opts[k + 1];
        }
      }
    }
  }

  /** The set TLS options, characterised without reference to their order. */
  lemma SelectedOptionsSpec(flags: AppFlags)
    ensures forall o :: o in SelectedOptions(flags) <==> IsSet(flags, o)
    ensures forall i, j :: 0 <= i < j < |SelectedOptions(flags)| ==>
      SelectedOptions(flags)[i] != SelectedOptions(flags)[j]
    ensures |SelectedOptions(flags)| <= 4
  {
    SetAmongMembers(AllTlsOptions, flags);
    SetAmongDistinct(AllTlsOptions, flags);
    forall o ensures o in AllTlsOptions {
      match o
      case TlsSystem => assert AllTlsOptions[0] == o;
      case TlsInsecure => assert AllTlsOptions[1] == o;
      case TlsCAFile => assert AllTlsOptions[2] == o;
      case TlsCAPath => assert AllTlsOptions[3] == o;
    }
  }

  /** No TLS option counts exactly when the four flags are all unset. */
  lemma NoTlsOptionIffAllUnset(flags: AppFlags)
    ensures |SelectedOptions(flags)| == 0 <==>
      !flags.tls && !flags.tlsInsecure && flags.tlsCAFile == [] && flags.tlsCAPath == []
  {
    SelectedOptionsSpec(flags);
    if |SelectedOptions(flags)| != 0 {
      assert IsSet(flags, SelectedOptions(flags)[0]);
    } else {
      assert !IsSet(flags, TlsSystem) && !IsSet(flags, TlsInsecure);
      assert !IsSet(flags, TlsCAFile) && !IsSet(flags, TlsCAPath);
    }
  }

  /** 1 for a true condition, 0 for a false one. */
  function Indicator(b: bool): nat {
    if b then 1 else 0
  }

  /** The number of set TLS options is the number of true items among the four conditions. */
  lemma SelectedOptionsCount(flags: AppFlags)
    ensures |SelectedOptions(flags)| ==
      Indicator(flags.tls) + Indicator(flags.tlsInsecure)
      + Indicator(|flags.tlsCAFile| > 0) + Indicator(|flags.tlsCAPath| > 0)
  {
    var opts := AllTlsOptions;
    calc {
      |SetAmong(opts, flags)|;
      Indicator(flags.tls) + |SetAmong([TlsInsecure, TlsCAFile, TlsCAPath], flags)|;
      { assert [TlsInsecure, TlsCAFile, TlsCAPath][1..] == [TlsCAFile, TlsCAPath]; }
      Indicator(flags.tls) + Indicator(flags.tlsInsecure) + |SetAmong([TlsCAFile, TlsCAPath], flags)|;
      { assert [TlsCAFile, TlsCAPath][1..] == [TlsCAPath]; }
      Indicator(flags.tls) + Indicator(flags.tlsInsecure)
      + Indicator(|flags.tlsCAFile| > 0) + |SetAmong([TlsCAPath], flags)|;
      { assert [TlsCAPath][1..] == []; }
      Indicator(flags.tls) + Indicator(flags.tlsInsecure)
      + Indicator(|flags.tlsCAFile| > 0) + Indicator(|flags.tlsCAPath| > 0);
    }
  }

  /** With a count of one, the selected option is set and every other option is unset. */
  lemma SingleTlsOption(flags: AppFlags)
    requires |SelectedOptions(flags)| == 1
    ensures IsSet(flags, SelectedOptions(flags)[0])
    ensures forall o :: IsSet(flags, o) ==> o == SelectedOptions(flags)[0]
  {
    SelectedOptionsSpec(flags);
  }

  /** `countTLSFlags`: one increment per TLS option that is set. */
  method CountTlsFlags(flags: AppFlags) returns (count: nat)
    ensures count == |SelectedOptions(flags)|
    ensures count <= 4
    ensures count == 0 <==>
      !flags.tls && !flags.tlsInsecure && flags.tlsCAFile == [] && flags.tlsCAPath == []
  {
    count := 0;
    if flags.tls {
      count := count + 1;
    }
    if flags.tlsInsecure {
      count := count + 1;
    }
    if |flags.tlsCAFile| > 0 {
      count := count + 1;
    }
    if |flags.tlsCAPath| > 0 {
      count := count + 1;
    }
    SelectedOptionsCount(flags);
    SelectedOptionsSpec(flags);
    NoTlsOptionIffAllUnset(flags);
  }
}

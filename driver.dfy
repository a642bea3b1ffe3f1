/**
 * The dhclient program's main: optionally wait for the interface to come
 * up, run the DHCPv6 or DHCPv4 client with the configured retry budget,
 * stop on any error, and apply the configuration unless this is a dry run.
 *
 * log.Fatal ends the process with exit status 1; it is modelled as a final
 * Fatal effect. The collaborators (interface gate, the two clients'
 * oracles, the interface configurator) are the fields of a Host value.
 */
module Driver {
  import opened Wrappers
  import opened Dhclient

  /** The range of Go's `int` on the 64-bit platforms the client runs on. */
  const MinInt: int := -0x8000_0000_0000_0000
  const MaxInt: int := 0x7FFF_FFFF_FFFF_FFFF

  /** A value of Go's 64-bit `int`, as `flag.Int` yields. */
  type GoInt = x: int | MinInt <= x <= MaxInt

  /** Go's `int` addition, which wraps around modulo 2^64. */
  function AddWrap(a: GoInt, b: GoInt): (r: GoInt)
    ensures MinInt <= a + b <= MaxInt ==> r == a + b
    ensures a + b > MaxInt ==> r == a + b - 0x1_0000_0000_0000_0000
    ensures a + b < MinInt ==> r == a + b + 0x1_0000_0000_0000_0000
  {
    (a + b - MinInt) % 0x1_0000_0000_0000_0000 + MinInt
  }

  /** The command-line flags: -v, -i, -dryrun, -d, -r and -noifup. */
  datatype Flags = Flags(ver: GoInt, ifname: string, dryrun: bool, debug: bool, retries: GoInt, noIfup: bool)

  /** The flags' default values. */
  const Defaults := Flags(6, "eth0", false, false, 3, false)

  /** How long main waits for the interface to come up. */
  const IfUpTimeoutSeconds: nat := 5

  datatype Family = V4 | V6

  /** What the collaborators answer: the interface gate, the link-local
      lookup, each family's exchange oracle and extractor, and the
      interface configurator. */
  datatype Host<!M, !C> = Host(
    ifUp: Option<Error>,
    linkLocalErr: Option<Error>,
    exchange6: nat -> Attempt<M>,
    extract6: seq<M> -> Result<C, Error>,
    exchange4: nat -> Attempt<M>,
    extract4: seq<M> -> Result<C, Error>,
    configure: (string, C) -> Option<Error>)

  /** One observable step of main. */
  datatype Effect<M, C> =
    | BringUp(ifname: string, timeoutSeconds: nat)  // netboot.IfUp
    | Client(family: Family, ifname: string, attempts: GoInt, verbose: bool, run: Run<M, C>)
    | ShowConfig(conf: C)                           // "Setting network configuration" and the record
    | DryRunNotice                                  // "dry run requested, ..."
    | Configure(ifname: string, conf: C)            // netboot.ConfigureInterface
    | Fatal(err: Error)                             // log.Fatal: exit status 1

  /** The steps main took and its exit status. */
  datatype Process<M, C> = Process(effects: seq<Effect<M, C>>, status: nat)

  /** The address family main picks: DHCPv6 for -v 6, DHCPv4 for any other value. */
  function FamilyOf(ver: int): (family: Family)
    ensures family == V6 <==> ver == 6
  {
    if ver == 6 then V6 else V4
  }

  /** The attempt budget main passes to the client: retries+1 in Go's
      wrapping `int` arithmetic. */
  function Attempts(flags: Flags): (attempts: GoInt)
    ensures flags.retries < MaxInt ==> attempts == flags.retries + 1
    ensures flags.retries == MaxInt ==> attempts == MinInt
  {
    AddWrap(flags.retries, 1)
  }

  /** What the chosen client does when main calls it with retries+1 attempts. */
  function ClientRun<M, C>(flags: Flags, host: Host<M, C>): (run: Run<M, C>)
    ensures run.issued <= Clamp(Attempts(flags))
  {
    if flags.ver == 6 then Client6(Attempts(flags), flags.debug, host.linkLocalErr, host.exchange6, host.extract6)
    else Negotiation(Attempts(flags), flags.debug, host.exchange4, host.extract4)
  }

  /** Specification of main. */
  function Behaviour<M, C>(flags: Flags, host: Host<M, C>): (p: Process<M, C>)
    ensures p.status == 0 || p.status == 1
    ensures |p.effects| > 0
  {
    var gate := if flags.noIfup then [] else [BringUp(flags.ifname, IfUpTimeoutSeconds)];
    if !flags.noIfup && host.ifUp.Some? then Process(gate + [Fatal(host.ifUp.value)], 1)
    else
      var run := ClientRun(flags, host);
      var ran := gate + [Client(FamilyOf(flags.ver), flags.ifname, Attempts(flags), flags.debug, run)];
      if run.result.Failure? then Process(ran + [Fatal(run.result.error)], 1)
      else
        var shown := ran + [ShowConfig(run.result.value)];
        if flags.dryrun then Process(shown + [DryRunNotice], 0)
        else
          var configured := shown + [Configure(flags.ifname, run.result.value)];
          var failed := host.configure(flags.ifname, run.result.value);
          if failed.Some? then Process(configured + [Fatal(failed.value)], 1)
          else Process(configured, 0)
  }

  /** main: each collaborator call in turn, with an early exit on the first error. */
  method Execute<M, C>(flags: Flags, host: Host<M, C>) returns (p: Process<M, C>)
    ensures p == Behaviour(flags, host)
  {
    var effects: seq<Effect<M, C>> := [];
    if !flags.noIfup {
      effects := [BringUp(flags.ifname, IfUpTimeoutSeconds)];
      if host.ifUp.Some? {
        return Process(effects + [Fatal(host.ifUp.value)], 1);
      }
    }
    var attempts := AddWrap(flags.retries, 1);
    var run: Run<M, C>;
    if flags.ver == 6 {
      run := Dhclient6(attempts, flags.debug, host.linkLocalErr, host.exchange6, host.extract6);
      effects := effects + [Client(V6, flags.ifname, attempts, flags.debug, run)];
    } else {
      run := Negotiate(attempts, flags.debug, host.exchange4, host.extract4);
      effects := effects + [Client(V4, flags.ifname, attempts, flags.debug, run)];
    }
    assert run == ClientRun(flags, host);
    if run.result.Failure? {
      return Process(effects + [Fatal(run.result.error)], 1);
    }
    var conf := run.result.value;
    effects := effects + [ShowConfig(conf)];
    if flags.dryrun {
      effects := effects + [DryRunNotice];
    } else {
      effects := effects + [Configure(flags.ifname, conf)];
      var failed := host.configure(flags.ifname, conf);
      if failed.Some? {
        return Process(effects + [Fatal(failed.value)], 1);
      }
    }
    p := Process(effects, 0);
  }

  /** Without -noifup the gate runs first, with a 5-second timeout, and
      never again; with -noifup it never runs at all. */
  lemma GateRunsUnlessSkipped<M, C>(flags: Flags, host: Host<M, C>)
    ensures var p := Behaviour(flags, host);
      !flags.noIfup ==> p.effects[0] == BringUp(flags.ifname, IfUpTimeoutSeconds)
    ensures var p := Behaviour(flags, host);
      forall i :: 0 <= i < |p.effects| && p.effects[i].BringUp? ==> i == 0 && !flags.noIfup
  {
  }

  /** The client runs exactly when the gate passed or was skipped; it is
      the DHCPv6 client iff -v is 6, and it gets retries+1 attempts and the
      -d flag as its verbose switch. */
  lemma ClientChoice<M, C>(flags: Flags, host: Host<M, C>)
    ensures var p := Behaviour(flags, host);
      (flags.noIfup || host.ifUp.None?) <==> exists i :: 0 <= i < |p.effects| && p.effects[i].Client?
    ensures var p := Behaviour(flags, host);
      forall i :: 0 <= i < |p.effects| && p.effects[i].Client? ==>
        && p.effects[i].family == (if flags.ver == 6 then V6 else V4)
        && p.effects[i].attempts == Attempts(flags)
        && p.effects[i].verbose == flags.debug
        && p.effects[i].run == ClientRun(flags, host)
  {
    var p := Behaviour(flags, host);
    if flags.noIfup || host.ifUp.None? {
      var gate := if flags.noIfup then [] else [BringUp(flags.ifname, IfUpTimeoutSeconds)];
      var client := Client(FamilyOf(flags.ver), flags.ifname, Attempts(flags), flags.debug, ClientRun(flags, host));
      assert p.effects[..|gate| + 1] == gate + [client];
      assert p.effects[|gate|] == client;
      forall i | 0 <= i < |p.effects| && p.effects[i].Client?
        ensures i == |gate|
      {
      }
    }
  }

  /** A Fatal effect is always the last one, and the exit status is 1
      exactly when main ended in log.Fatal. */
  lemma FatalEndsProcess<M, C>(flags: Flags, host: Host<M, C>)
    ensures var p := Behaviour(flags, host);
      forall i :: 0 <= i < |p.effects| && p.effects[i].Fatal? ==> i == |p.effects| - 1
    ensures var p := Behaviour(flags, host);
      p.status == 1 <==> (|p.effects| > 0 && p.effects[|p.effects| - 1].Fatal?)
  {
  }

  /** A failed gate, a failed client and a failed configurator each end
      main in log.Fatal with that error, and main exits 0 exactly when none
      of them failed: the gate passed or was skipped, the client returned a
      configuration, and this is a dry run or the configurator accepted it. */
  lemma FailuresAreFatal<M, C>(flags: Flags, host: Host<M, C>)
    ensures var p := Behaviour(flags, host);
      !flags.noIfup && host.ifUp.Some? ==> p.effects[|p.effects| - 1] == Fatal(host.ifUp.value)
    ensures var p := Behaviour(flags, host); var run := ClientRun(flags, host);
      (flags.noIfup || host.ifUp.None?) && run.result.Failure? ==>
        p.effects[|p.effects| - 1] == Fatal(run.result.error)
    ensures var p := Behaviour(flags, host); var run := ClientRun(flags, host);
      (flags.noIfup || host.ifUp.None?) && run.result.Success? && !flags.dryrun
        && host.configure(flags.ifname, run.result.value).Some? ==>
        p.effects[|p.effects| - 1] == Fatal(host.configure(flags.ifname, run.result.value).value)
    ensures var p := Behaviour(flags, host); var run := ClientRun(flags, host);
      p.status == 0 <==>
        && (flags.noIfup || host.ifUp.None?)
        && run.result.Success?
        && (flags.dryrun || host.configure(flags.ifname, run.result.value).None?)
  {
  }

  /** -r at the largest Go `int` wraps retries+1 around to the smallest
      one, which the client clamps to a single attempt. */
  lemma LargestRetriesWrapToOneAttempt<M, C>(flags: Flags, host: Host<M, C>)
    requires flags.retries == MaxInt
    requires flags.ver != 6 || host.linkLocalErr.None?
    ensures Attempts(flags) == MinInt
    ensures ClientRun(flags, host).issued == 1
  {
  }

  /** The interface is configured, with the client's configuration, exactly
      when the gate passed or was skipped, the client succeeded and this is
      not a dry run; so never in a dry run and never after an error. */
  lemma ConfiguresOnlyOnSuccess<M, C>(flags: Flags, host: Host<M, C>, ifname: string, conf: C)
    ensures Configure(ifname, conf) in Behaviour(flags, host).effects <==>
      && !flags.dryrun
      && (flags.noIfup || host.ifUp.None?)
      && ClientRun(flags, host).result == Success(conf)
      && ifname == flags.ifname
  {
  }

  /** A dry run never touches the interface. */
  lemma DryRunNeverConfigures<M, C>(flags: Flags, host: Host<M, C>)
    requires flags.dryrun
    ensures forall i :: 0 <= i < |Behaviour(flags, host).effects| ==> !Behaviour(flags, host).effects[i].Configure?
  {
  }

  /** With the default flags (-r 3) and every exchange failing, the DHCPv6
      client makes four attempts and main exits with status 1. */
  lemma DefaultRetriesGiveFourAttempts<M, C>(host: Host<M, C>)
    requires host.ifUp.None? && host.linkLocalErr.None?
    requires forall j :: 0 <= j < 4 ==> host.exchange6(j).err.Some?
    ensures ClientRun(Defaults, host).issued == 4
    ensures Behaviour(Defaults, host).status == 1
  {
    AllFailuresExhaust(Attempts(Defaults), Defaults.debug, host.exchange6, host.extract6);
  }

  /** DHCPv4 with -r 3: three failed attempts and a fourth that succeeds
      lead to exactly the extracted record being applied, and exit 0. */
  lemma FourthAttemptConfigures<M, C>(flags: Flags, host: Host<M, C>, record: C)
    requires flags.ver == 4 && flags.retries == 3 && !flags.dryrun
    requires flags.noIfup || host.ifUp.None?
    requires forall j :: 0 <= j < 3 ==> host.exchange4(j).err.Some?
    requires host.exchange4(3).err.None?
    requires host.extract4(host.exchange4(3).conv) == Success(record)
    requires host.configure(flags.ifname, record).None?
    ensures ClientRun(flags, host).issued == 4
    ensures Behaviour(flags, host).status == 0
    ensures Behaviour(flags, host).effects[|Behaviour(flags, host).effects| - 1] == Configure(flags.ifname, record)
  {
    FirstSuccessStops(Attempts(flags), flags.debug, host.exchange4, host.extract4, 4);
  }

  /** DHCPv6 on an interface without a link-local address: no exchange is
      issued and main fails with the lookup's error. */
  lemma MissingLinkLocalIsFatal<M, C>(flags: Flags, host: Host<M, C>, e: Error)
    requires flags.ver == 6
    requires flags.noIfup || host.ifUp.None?
    requires host.linkLocalErr == Some(e)
    ensures ClientRun(flags, host).issued == 0
    ensures Behaviour(flags, host).status == 1
    ensures Behaviour(flags, host).effects[|Behaviour(flags, host).effects| - 1] == Fatal(e)
  {
  }

  /** A dry run with a successful client reports the record, changes
      nothing and exits 0. */
  lemma DryRunReports<M, C>(flags: Flags, host: Host<M, C>, record: C)
    requires flags.dryrun
    requires flags.noIfup || host.ifUp.None?
    requires ClientRun(flags, host).result == Success(record)
    ensures Behaviour(flags, host).status == 0
    ensures ShowConfig(record) in Behaviour(flags, host).effects
    ensures Behaviour(flags, host).effects[|Behaviour(flags, host).effects| - 1] == DryRunNotice
  {
  }
}

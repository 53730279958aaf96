/** Construction-time configuration of a DHT node: the option setters folded
    over a `config` record, the fallback step that completes the default
    namespaced validator, and the reserved-namespace validation.

    Durations are integers of nanoseconds, as Go's `time.Duration` is. */
module DhtOptions {

  type Duration = int

  const Second: Duration := 1_000_000_000
  const Minute: Duration := 60 * Second
  const Hour: Duration := 60 * Minute

  /** The prefix reserved for the public IPFS DHT. */
  const DefaultPrefix: string := "/ipfs"
  const DefaultBucketSize: int := 20
  /** Default deepest protected bucket (the documented default of ProtectedBuckets). */
  const DefaultProtectedBuckets: int := 1

  datatype ModeOpt = ModeAuto | ModeClient | ModeServer | ModeAutoServer

  /** A record validator that is not itself a namespace table. `NilValidator`
      stands for Go's nil interface value; the public-key and IPNS validators
      are the two the reserved namespace insists on. */
  datatype ValidatorKind = NilValidator | PublicKeyValidator | IpnsValidator | OtherValidator(id: nat)

  /** The tag the source recovers by a type switch: a validator either is a
      namespace table or it is not. */
  datatype RecordValidator =
    | Simple(kind: ValidatorKind)
    | Namespaced(entries: map<string, ValidatorKind>)

  /** A peer filter function, by identity: unset (nil), the accept-all
      default, or one supplied by the user. */
  datatype FilterRef = NoFilter | AcceptAll | CustomFilter(id: nat)

  datatype RoutingTableSettings = RoutingTableSettings(
    refreshQueryTimeout: Duration,
    refreshInterval: Duration,
    autoRefresh: bool,
    latencyTolerance: Duration,
    peerFilter: FilterRef,
    considerLatency: bool)

  /** The value of a `config` record (the fields this model keeps). */
  datatype Settings = Settings(
    validator: RecordValidator,
    validatorChanged: bool,
    mode: ModeOpt,
    protocolPrefix: string,
    bucketSize: int,
    concurrency: int,
    resiliency: int,
    maxRecordAge: Duration,
    enableProviders: bool,
    enableValues: bool,
    queryPeerFilter: FilterRef,
    protectAllBuckets: bool,
    protectedBuckets: int,
    routingTable: RoutingTableSettings,
    v1CompatibleMode: bool)

  /** Go's zero value of `config`, before any option has run. */
  const ZeroSettings: Settings :=
    Settings(Simple(NilValidator), false, ModeAuto, "", 0, 0, 0, 0, false, false, NoFilter,
             false, 0, RoutingTableSettings(0, 0, false, 0, NoFilter, false), false)

  /** The option setters, one constructor each. The ones whose field this
      model leaves out still take their place in the option list. */
  datatype Option =
    | Defaults
    | RoutingTableLatencyTolerance(latency: Duration)
    | RoutingTableRefreshQueryTimeout(timeout: Duration)
    | RoutingTableRefreshPeriod(period: Duration)
    | Datastore
    | Mode(m: ModeOpt)
    | Validator(v: RecordValidator)
    | NamespacedValidator(ns: string, nv: ValidatorKind)
    | ProtocolPrefix(prefix: string)
    | ProtocolExtension(ext: string)
    | BucketSize(size: int)
    | Concurrency(alpha: int)
    | Resiliency(beta: int)
    | MaxRecordAge(maxAge: Duration)
    | DisableAutoRefresh
    | DisableProviders
    | DisableValues
    | ProvidersOptions
    | QueryFilter(qf: FilterRef)
    | RoutingTableFilter(rf: FilterRef)
    | EnableProtectAllBuckets
    | ProtectedBuckets(maxCpl: int)
    | EnableConsiderLatency
    | AvgBitsImprovedPerStep
    | AvgRoundTripPerStep
    | V1CompatibleMode(enable: bool)
    | BootstrapPeers

  datatype ConfigError =
    | OptionFailed(index: nat, cause: ConfigError)
    | NotANamespacedValidator
    | ValidatorChangedUnmarked
    | WrongBucketSize
    | ProvidersDisabled
    | ValuesDisabled
    | ValidatorNotNamespaced
    | WrongNamespaceCount
    | MissingPk
    | WrongPkValidator
    | MissingIpns
    | WrongIpnsValidator

  datatype Outcome = Pass | Fail(error: ConfigError)

  datatype StepResult = Applied(cfg: Settings) | Rejected(error: ConfigError)

  /** The fields of a `config`, so that frame properties can be stated once. */
  datatype Field =
    | ValidatorField | ValidatorChangedField | ModeField | PrefixField | BucketSizeField
    | ConcurrencyField | ResiliencyField | MaxRecordAgeField | ProvidersField | ValuesField
    | QueryFilterField | ProtectAllField | ProtectedBucketsField | RefreshQueryTimeoutField
    | RefreshIntervalField | AutoRefreshField | LatencyToleranceField | PeerFilterField
    | ConsiderLatencyField | V1CompatibleField

  /** `s` and `t` agree on field `f`. */
  predicate SameOn(s: Settings, t: Settings, f: Field)
  {
    match f
    case ValidatorField => s.validator == t.validator
    case ValidatorChangedField => s.validatorChanged == t.validatorChanged
    case ModeField => s.mode == t.mode
    case PrefixField => s.protocolPrefix == t.protocolPrefix
    case BucketSizeField => s.bucketSize == t.bucketSize
    case ConcurrencyField => s.concurrency == t.concurrency
    case ResiliencyField => s.resiliency == t.resiliency
    case MaxRecordAgeField => s.maxRecordAge == t.maxRecordAge
    case ProvidersField => s.enableProviders == t.enableProviders
    case ValuesField => s.enableValues == t.enableValues
    case QueryFilterField => s.queryPeerFilter == t.queryPeerFilter
    case ProtectAllField => s.protectAllBuckets == t.protectAllBuckets
    case ProtectedBucketsField => s.protectedBuckets == t.protectedBuckets
    case RefreshQueryTimeoutField => s.routingTable.refreshQueryTimeout == t.routingTable.refreshQueryTimeout
    case RefreshIntervalField => s.routingTable.refreshInterval == t.routingTable.refreshInterval
    case AutoRefreshField => s.routingTable.autoRefresh == t.routingTable.autoRefresh
    case LatencyToleranceField => s.routingTable.latencyTolerance == t.routingTable.latencyTolerance
    case PeerFilterField => s.routingTable.peerFilter == t.routingTable.peerFilter
    case ConsiderLatencyField => s.routingTable.considerLatency == t.routingTable.considerLatency
    case V1CompatibleField => s.v1CompatibleMode == t.v1CompatibleMode
  }

  /** The fields each setter assigns. */
  predicate Writes(opt: Option, f: Field)
  {
    match opt
    case Defaults => f != ModeField && f != ValidatorChangedField
    case RoutingTableLatencyTolerance(_) => f == LatencyToleranceField
    case RoutingTableRefreshQueryTimeout(_) => f == RefreshQueryTimeoutField
    case RoutingTableRefreshPeriod(_) => f == RefreshIntervalField
    case Datastore => false
    case Mode(_) => f == ModeField
    case Validator(_) => f == ValidatorField || f == ValidatorChangedField
    case NamespacedValidator(_, _) => f == ValidatorField
    case ProtocolPrefix(_) => f == PrefixField
    case ProtocolExtension(_) => f == PrefixField
    case BucketSize(_) => f == BucketSizeField
    case Concurrency(_) => f == ConcurrencyField
    case Resiliency(_) => f == ResiliencyField
    case MaxRecordAge(_) => f == MaxRecordAgeField
    case DisableAutoRefresh => f == AutoRefreshField
    case DisableProviders => f == ProvidersField
    case DisableValues => f == ValuesField
    case ProvidersOptions => false
    case QueryFilter(_) => f == QueryFilterField
    case RoutingTableFilter(_) => f == PeerFilterField
    case EnableProtectAllBuckets => f == ProtectAllField
    case ProtectedBuckets(_) => f == ProtectedBucketsField
    case EnableConsiderLatency => f == ConsiderLatencyField
    case AvgBitsImprovedPerStep => false
    case AvgRoundTripPerStep => false
    case V1CompatibleMode(_) => f == V1CompatibleField
    case BootstrapPeers => false
  }

  /** The fields the `defaults` option assigns. It starts an empty namespace
      table and leaves the mode and the changed-validator flag as they were. */
  function DefaultsOf(s: Settings): (r: Settings)
    ensures r.validator == Namespaced(map[]) && r.validatorChanged == s.validatorChanged
    ensures r.mode == s.mode
    ensures r.protocolPrefix == DefaultPrefix && r.bucketSize == DefaultBucketSize
    ensures r.enableProviders && r.enableValues && r.routingTable.autoRefresh
    ensures ReservedNamespaceOk(r.(validator := Namespaced(DefaultNamespaces)))
    ensures r.concurrency == 10 && r.resiliency == 3 && r.maxRecordAge == 36 * Hour
    ensures !r.protectAllBuckets && r.protectedBuckets == DefaultProtectedBuckets
    ensures r.v1CompatibleMode && !r.routingTable.considerLatency
    ensures r.queryPeerFilter == AcceptAll && r.routingTable.peerFilter == AcceptAll
    ensures r.routingTable.latencyTolerance == Minute && r.routingTable.refreshQueryTimeout == Minute
    ensures r.routingTable.refreshInterval == 10 * Minute
  {
    s.(
      validator := Namespaced(map[]),
      protocolPrefix := DefaultPrefix,
      enableProviders := true,
      enableValues := true,
      queryPeerFilter := AcceptAll,
      routingTable := s.routingTable.(
        latencyTolerance := Minute,
        refreshQueryTimeout := 1 * Minute,
        refreshInterval := 10 * Minute,
        autoRefresh := true,
        peerFilter := AcceptAll,
        considerLatency := false),
      maxRecordAge := Hour * 36,
      bucketSize := DefaultBucketSize,
      concurrency := 10,
      resiliency := 3,
      protectAllBuckets := false,
      protectedBuckets := DefaultProtectedBuckets,
      v1CompatibleMode := true)
  }

  /** The setters of the `routingTable` sub-record (and the two latency
      coefficients, whose fields are not modelled). */
  predicate RoutingTableOption(opt: Option)
  {
    || opt.RoutingTableLatencyTolerance? || opt.RoutingTableRefreshQueryTimeout?
    || opt.RoutingTableRefreshPeriod? || opt.DisableAutoRefresh? || opt.RoutingTableFilter?
    || opt.EnableConsiderLatency? || opt.AvgBitsImprovedPerStep? || opt.AvgRoundTripPerStep?
  }

  /** The two validator setters. */
  predicate ValidatorOption(opt: Option)
  {
    opt.Validator? || opt.NamespacedValidator?
  }

  /** The setters of the protocol naming and of the mode. */
  predicate ProtocolOption(opt: Option)
  {
    opt.ProtocolPrefix? || opt.ProtocolExtension? || opt.Mode? || opt.V1CompatibleMode?
  }

  /** The setters of the query parameters. */
  predicate QueryOption(opt: Option)
  {
    opt.BucketSize? || opt.Concurrency? || opt.Resiliency? || opt.QueryFilter?
  }

  /** The setters of connection protection. */
  predicate ProtectionOption(opt: Option)
  {
    opt.EnableProtectAllBuckets? || opt.ProtectedBuckets?
  }

  /** The setters of record storage (several touch only fields not modelled). */
  predicate StorageOption(opt: Option)
  {
    || opt.Datastore? || opt.MaxRecordAge? || opt.DisableProviders? || opt.DisableValues?
    || opt.ProvidersOptions? || opt.BootstrapPeers?
  }

  /** The effect of running one option closure on a config. Only
      `NamespacedValidator` can fail, and then before it changes anything. */
  function RunOption(s: Settings, opt: Option): (r: StepResult)
    ensures r.Rejected? <==> opt.NamespacedValidator? && !s.validator.Namespaced?
    ensures r.Rejected? ==> r.error == NotANamespacedValidator
    ensures opt.Validator? ==> r.Applied? && r.cfg.validator == opt.v && r.cfg.validatorChanged
    ensures opt.NamespacedValidator? && r.Applied? ==>
              && r.cfg.validator.Namespaced?
              && r.cfg.validator.entries.Keys == s.validator.entries.Keys + {opt.ns}
              && r.cfg.validator.entries[opt.ns] == opt.nv
              && (forall k :: k in s.validator.entries && k != opt.ns ==>
                    r.cfg.validator.entries[k] == s.validator.entries[k])
              && r.cfg.validatorChanged == s.validatorChanged
    ensures opt.BucketSize? ==> r.Applied? && r.cfg.bucketSize == opt.size
    ensures opt.ProtocolExtension? ==> r.Applied? && r.cfg.protocolPrefix == s.protocolPrefix + opt.ext
    ensures opt.ProtocolPrefix? ==> r.Applied? && r.cfg.protocolPrefix == opt.prefix
    ensures opt.DisableProviders? ==> r.Applied? && !r.cfg.enableProviders
    ensures opt.DisableValues? ==> r.Applied? && !r.cfg.enableValues
    ensures opt.DisableAutoRefresh? ==> r.Applied? && !r.cfg.routingTable.autoRefresh
    ensures opt.ProtectedBuckets? ==> r.Applied? && r.cfg.protectedBuckets == opt.maxCpl
    ensures opt.EnableProtectAllBuckets? ==> r.Applied? && r.cfg.protectAllBuckets
  {
    match opt
    case Defaults => Applied(DefaultsOf(s))
    case RoutingTableLatencyTolerance(d) => Applied(s.(routingTable := s.routingTable.(latencyTolerance := d)))
    case RoutingTableRefreshQueryTimeout(d) => Applied(s.(routingTable := s.routingTable.(refreshQueryTimeout := d)))
    case RoutingTableRefreshPeriod(d) => Applied(s.(routingTable := s.routingTable.(refreshInterval := d)))
    case Datastore => Applied(s)
    case Mode(m) => Applied(s.(mode := m))
    case Validator(v) => Applied(s.(validator := v, validatorChanged := true))
    case NamespacedValidator(ns, v) =>
      if s.validator.Namespaced?
      then Applied(s.(validator := Namespaced(s.validator.entries[ns := v])))
      else Rejected(NotANamespacedValidator)
    case ProtocolPrefix(p) => Applied(s.(protocolPrefix := p))
    case ProtocolExtension(ext) => Applied(s.(protocolPrefix := s.protocolPrefix + ext))
    case BucketSize(n) => Applied(s.(bucketSize := n))
    case Concurrency(n) => Applied(s.(concurrency := n))
    case Resiliency(n) => Applied(s.(resiliency := n))
    case MaxRecordAge(d) => Applied(s.(maxRecordAge := d))
    case DisableAutoRefresh => Applied(s.(routingTable := s.routingTable.(autoRefresh := false)))
    case DisableProviders => Applied(s.(enableProviders := false))
    case DisableValues => Applied(s.(enableValues := false))
    case ProvidersOptions => Applied(s)
    case QueryFilter(f) => Applied(s.(queryPeerFilter := f))
    case RoutingTableFilter(f) => Applied(s.(routingTable := s.routingTable.(peerFilter := f)))
    case EnableProtectAllBuckets => Applied(s.(protectAllBuckets := true))
    case ProtectedBuckets(n) => Applied(s.(protectedBuckets := n))
    case EnableConsiderLatency => Applied(s.(routingTable := s.routingTable.(considerLatency := true)))
    case AvgBitsImprovedPerStep => Applied(s)
    case AvgRoundTripPerStep => Applied(s)
    case V1CompatibleMode(b) => Applied(s.(v1CompatibleMode := b))
    case BootstrapPeers => Applied(s)
  }

  /** The value each remaining setter stores in its field. */
  lemma RunOptionSets(s: Settings, opt: Option)
    ensures opt.Mode? ==> RunOption(s, opt).Applied? && RunOption(s, opt).cfg.mode == opt.m
    ensures opt.Concurrency? ==> RunOption(s, opt).Applied? && RunOption(s, opt).cfg.concurrency == opt.alpha
    ensures opt.Resiliency? ==> RunOption(s, opt).Applied? && RunOption(s, opt).cfg.resiliency == opt.beta
    ensures opt.MaxRecordAge? ==> RunOption(s, opt).Applied? && RunOption(s, opt).cfg.maxRecordAge == opt.maxAge
    ensures opt.QueryFilter? ==> RunOption(s, opt).Applied? && RunOption(s, opt).cfg.queryPeerFilter == opt.qf
    ensures opt.RoutingTableFilter? ==>
              RunOption(s, opt).Applied? && RunOption(s, opt).cfg.routingTable.peerFilter == opt.rf
    ensures opt.RoutingTableLatencyTolerance? ==>
              RunOption(s, opt).Applied? && RunOption(s, opt).cfg.routingTable.latencyTolerance == opt.latency
    ensures opt.RoutingTableRefreshQueryTimeout? ==>
              RunOption(s, opt).Applied? && RunOption(s, opt).cfg.routingTable.refreshQueryTimeout == opt.timeout
    ensures opt.RoutingTableRefreshPeriod? ==>
              RunOption(s, opt).Applied? && RunOption(s, opt).cfg.routingTable.refreshInterval == opt.period
    ensures opt.EnableConsiderLatency? ==> RunOption(s, opt).Applied? && RunOption(s, opt).cfg.routingTable.considerLatency
    ensures opt.V1CompatibleMode? ==> RunOption(s, opt).Applied? && RunOption(s, opt).cfg.v1CompatibleMode == opt.enable
  {
  }

  // One frame lemma per group of setters keeps each proof obligation small.

  lemma DefaultsFrame(s: Settings, f: Field)
    requires !Writes(Defaults, f)
    ensures SameOn(s, RunOption(s, Defaults).cfg, f)
  {
  }

  lemma RoutingTableOptionFrame(s: Settings, opt: Option, f: Field)
    requires RoutingTableOption(opt) && !Writes(opt, f)
    ensures SameOn(s, RunOption(s, opt).cfg, f)
  {
  }

  lemma ValidatorOptionFrame(s: Settings, opt: Option, f: Field)
    requires ValidatorOption(opt) && RunOption(s, opt).Applied? && !Writes(opt, f)
    ensures SameOn(s, RunOption(s, opt).cfg, f)
  {
  }

  lemma ProtocolOptionFrame(s: Settings, opt: Option, f: Field)
    requires ProtocolOption(opt) && !Writes(opt, f)
    ensures SameOn(s, RunOption(s, opt).cfg, f)
  {
  }

  lemma QueryOptionFrame(s: Settings, opt: Option, f: Field)
    requires QueryOption(opt) && !Writes(opt, f)
    ensures SameOn(s, RunOption(s, opt).cfg, f)
  {
  }

  lemma ProtectionOptionFrame(s: Settings, opt: Option, f: Field)
    requires ProtectionOption(opt) && !Writes(opt, f)
    ensures SameOn(s, RunOption(s, opt).cfg, f)
  {
  }

  lemma StorageOptionFrame(s: Settings, opt: Option, f: Field)
    requires StorageOption(opt) && !Writes(opt, f)
    ensures SameOn(s, RunOption(s, opt).cfg, f)
  {
  }

  /** Each setter changes only the fields it is meant to assign. */
  lemma RunOptionFrame(s: Settings, opt: Option, f: Field)
    requires RunOption(s, opt).Applied? && !Writes(opt, f)
    ensures SameOn(s, RunOption(s, opt).cfg, f)
  {
    if opt.Defaults? {
      DefaultsFrame(s, f);
    } else if RoutingTableOption(opt) {
      RoutingTableOptionFrame(s, opt, f);
    } else if ValidatorOption(opt) {
      ValidatorOptionFrame(s, opt, f);
    } else if ProtocolOption(opt) {
      ProtocolOptionFrame(s, opt, f);
    } else if QueryOption(opt) {
      QueryOptionFrame(s, opt, f);
    } else if ProtectionOption(opt) {
      ProtectionOptionFrame(s, opt, f);
    } else {
      StorageOptionFrame(s, opt, f);
    }
  }

  /** The config after running `opts` in order, stopping at the first option
      that fails, together with what `apply` returns. */
  datatype Folded = Folded(settings: Settings, outcome: Outcome)

  function FoldOptions(s: Settings, opts: seq<Option>): (r: Folded)
    ensures r.outcome.Fail? ==> r.outcome.error.OptionFailed? && r.outcome.error.index < |opts|
    ensures r.outcome.Fail? ==> r.outcome.error.cause == NotANamespacedValidator
    decreases |opts|
  {
    if opts == [] then Folded(s, Pass)
    else
      var prev := FoldOptions(s, opts[..|opts| - 1]);
      if prev.outcome.Fail? then prev
      else match RunOption(prev.settings, opts[|opts| - 1])
        case Rejected(e) => Folded(prev.settings, Fail(OptionFailed(|opts| - 1, e)))
        case Applied(t) => Folded(t, Pass)
  }

  /** Running one more option after `opts`. */
  lemma FoldSnoc(s: Settings, opts: seq<Option>, o: Option)
    ensures var prev := FoldOptions(s, opts);
            FoldOptions(s, opts + [o]) ==
              if prev.outcome.Fail? then prev
              else match RunOption(prev.settings, o)
                case Rejected(e) => Folded(prev.settings, Fail(OptionFailed(|opts|, e)))
                case Applied(t) => Folded(t, Pass)
  {
    assert (opts + [o])[..|opts|] == opts;
  }

  /** `apply` reports index `i` exactly when option `i` is the first to fail,
      and the config then holds the effect of options `0..i-1` only. */
  lemma {:induction false} FirstFailure(s: Settings, opts: seq<Option>, i: nat, e: ConfigError)
    ensures FoldOptions(s, opts).outcome == Fail(OptionFailed(i, e)) <==>
              && i < |opts|
              && FoldOptions(s, opts[..i]).outcome.Pass?
              && RunOption(FoldOptions(s, opts[..i]).settings, opts[i]) == Rejected(e)
    ensures FoldOptions(s, opts).outcome == Fail(OptionFailed(i, e)) ==>
              FoldOptions(s, opts).settings == FoldOptions(s, opts[..i]).settings
    decreases |opts|
  {
    if opts != [] {
      var n := |opts| - 1;
      var init := opts[..n];
      FirstFailure(s, init, i, e);
      if i < n {
        assert init[..i] == opts[..i];
        assert init[i] == opts[i];
        PassPrefix(s, opts, i, n);
      } else if i == n {
        assert init == opts[..i];
      }
    }
  }

  /** A fold that succeeds on `opts[..j]` succeeded on each shorter prefix. */
  lemma {:induction false} PassPrefix(s: Settings, opts: seq<Option>, i: nat, j: nat)
    requires i <= j <= |opts|
    ensures FoldOptions(s, opts[..j]).outcome.Pass? ==> FoldOptions(s, opts[..i]).outcome.Pass?
    decreases j - i
  {
    if i < j {
      var pre := opts[..j];
      assert pre[..j - 1] == opts[..j - 1];
      PassPrefix(s, opts, i, j - 1);
    }
  }

  /** When every option succeeds they all ran in order: the result is option
      `k`'s effect on the state before it, carried through the rest. */
  lemma {:induction false} AllRan(s: Settings, opts: seq<Option>, k: nat)
    requires k < |opts|
    requires FoldOptions(s, opts).outcome.Pass?
    ensures FoldOptions(s, opts[..k]).outcome.Pass?
    ensures RunOption(FoldOptions(s, opts[..k]).settings, opts[k]) == Applied(FoldOptions(s, opts[..k + 1]).settings)
  {
    assert opts[..|opts|] == opts;
    PassPrefix(s, opts, k + 1, |opts|);
    var pre := opts[..k + 1];
    assert pre[..k] == opts[..k];
  }

  /** A field that no option after `k` writes keeps the value option `k` left
      in it: for the same field the last setter wins. */
  lemma {:induction false} LastWriterWins(s: Settings, opts: seq<Option>, k: nat, f: Field)
    requires k < |opts|
    requires FoldOptions(s, opts).outcome.Pass?
    requires forall j :: k < j < |opts| ==> !Writes(opts[j], f)
    ensures SameOn(FoldOptions(s, opts).settings, FoldOptions(s, opts[..k + 1]).settings, f)
    decreases |opts|
  {
    if k + 1 == |opts| {
      assert opts[..k + 1] == opts;
    } else {
      var n := |opts| - 1;
      var init := opts[..n];
      assert init[..k + 1] == opts[..k + 1];
      LastWriterWins(s, init, k, f);
      var prev := FoldOptions(s, init);
      RunOptionFrame(prev.settings, opts[n], f);
    }
  }

  /** A field no option writes is left as it was, whether or not `apply` fails. */
  lemma {:induction false} UntouchedField(s: Settings, opts: seq<Option>, f: Field)
    requires forall j :: 0 <= j < |opts| ==> !Writes(opts[j], f)
    ensures SameOn(FoldOptions(s, opts).settings, s, f)
    decreases |opts|
  {
    if opts != [] {
      var n := |opts| - 1;
      UntouchedField(s, opts[..n], f);
      var prev := FoldOptions(s, opts[..n]);
      if prev.outcome.Pass? && RunOption(prev.settings, opts[n]).Applied? {
        RunOptionFrame(prev.settings, opts[n], f);
      }
    }
  }

  /** The last `BucketSize` option decides the bucket size. */
  lemma LastBucketSizeWins(s: Settings, opts: seq<Option>, k: nat)
    requires k < |opts| && opts[k].BucketSize?
    requires FoldOptions(s, opts).outcome.Pass?
    requires forall j :: k < j < |opts| ==> !opts[j].BucketSize? && !opts[j].Defaults?
    ensures FoldOptions(s, opts).settings.bucketSize == opts[k].size
  {
    AllRan(s, opts, k);
    forall j | k < j < |opts| ensures !Writes(opts[j], BucketSizeField) {
    }
    LastWriterWins(s, opts, k, BucketSizeField);
  }

  /** Completes a namespace table with the default "pk" and "ipns" entries,
      leaving every entry already present as it is. */
  function WithDefaultNamespaces(m: map<string, ValidatorKind>): (r: map<string, ValidatorKind>)
    ensures r.Keys == m.Keys + {"pk", "ipns"}
    ensures forall k :: k in m ==> r[k] == m[k]
    ensures "pk" !in m ==> r["pk"] == PublicKeyValidator
    ensures "ipns" !in m ==> r["ipns"] == IpnsValidator
  {
    var withPk := if "pk" in m then m else m["pk" := PublicKeyValidator];
    if "ipns" in withPk then withPk else withPk["ipns" := IpnsValidator]
  }

  /** `applyFallbacks`: fails exactly when the validator was replaced without
      being marked as changed; a marked change is left alone. */
  function Fallbacks(s: Settings): (r: StepResult)
    ensures r.Rejected? <==> !s.validatorChanged && !s.validator.Namespaced?
    ensures r.Rejected? ==> r.error == ValidatorChangedUnmarked
    ensures s.validatorChanged ==> r == Applied(s)
    ensures r.Applied? && !s.validatorChanged ==>
              && r.cfg == s.(validator := r.cfg.validator)
              && r.cfg.validator.Namespaced?
              && r.cfg.validator.entries == WithDefaultNamespaces(s.validator.entries)
  {
    if s.validatorChanged then Applied(s)
    else match s.validator
      case Namespaced(m) => Applied(s.(validator := Namespaced(WithDefaultNamespaces(m))))
      case Simple(_) => Rejected(ValidatorChangedUnmarked)
  }

  /** The namespace table the reserved prefix requires. */
  const DefaultNamespaces: map<string, ValidatorKind> := map["pk" := PublicKeyValidator, "ipns" := IpnsValidator]

  /** The reserved-namespace invariant, stated independently of `validate`. */
  predicate ReservedNamespaceOk(s: Settings)
  {
    && s.bucketSize == DefaultBucketSize
    && s.enableProviders
    && s.enableValues
    && s.validator == Namespaced(DefaultNamespaces)
  }

  /** `validate`: checks in the source's order, reporting the first violated. */
  function Validate(s: Settings): (r: Outcome)
    ensures s.protocolPrefix != DefaultPrefix ==> r == Pass
    ensures s.protocolPrefix == DefaultPrefix && s.bucketSize != DefaultBucketSize ==> r == Fail(WrongBucketSize)
    ensures s.protocolPrefix == DefaultPrefix && !s.enableProviders ==> r.Fail?
    ensures s.protocolPrefix == DefaultPrefix && !s.enableValues ==> r.Fail?
    ensures s.protocolPrefix == DefaultPrefix && !s.validator.Namespaced? ==> r.Fail?
  {
    if s.protocolPrefix != DefaultPrefix then Pass
    else if s.bucketSize != DefaultBucketSize then Fail(WrongBucketSize)
    else if !s.enableProviders then Fail(ProvidersDisabled)
    else if !s.enableValues then Fail(ValuesDisabled)
    else match s.validator
      case Simple(_) => Fail(ValidatorNotNamespaced)
      case Namespaced(m) =>
        if |m| != 2 then Fail(WrongNamespaceCount)
        else if "pk" !in m then Fail(MissingPk)
        else if m["pk"] != PublicKeyValidator then Fail(WrongPkValidator)
        else if "ipns" !in m then Fail(MissingIpns)
        else if m["ipns"] != IpnsValidator then Fail(WrongIpnsValidator)
        else Pass
  }

  /** Two distinct members of a two-element set are all of it. */
  lemma TwoKeys(m: map<string, ValidatorKind>)
    requires |m| == 2 && "pk" in m && "ipns" in m
    ensures m.Keys == {"pk", "ipns"}
  {
    var rest := m.Keys - {"pk", "ipns"};
    assert m.Keys == rest + {"pk", "ipns"};
    assert rest !! {"pk", "ipns"};
    assert |m.Keys| == |rest| + 2;
  }

  /** `validate` succeeds exactly when the prefix is not the reserved one or
      the reserved-namespace invariant holds. */
  lemma ValidateIff(s: Settings)
    ensures Validate(s) == Pass <==> s.protocolPrefix != DefaultPrefix || ReservedNamespaceOk(s)
  {
    if s.protocolPrefix == DefaultPrefix && Validate(s) == Pass {
      var m := s.validator.entries;
      TwoKeys(m);
      assert m == DefaultNamespaces;
    }
  }

  /** The whole construction sequence: `defaults` is prepended to the user's
      options, then fallbacks are applied, then the result is validated. */
  function Construct(opts: seq<Option>): (r: Outcome)
    ensures r == Pass ==>
              var t := FoldOptions(ZeroSettings, [Defaults] + opts).settings;
              t.protocolPrefix != DefaultPrefix || t.bucketSize == DefaultBucketSize
  {
    var folded := FoldOptions(ZeroSettings, [Defaults] + opts);
    if folded.outcome.Fail? then folded.outcome
    else match Fallbacks(folded.settings)
      case Rejected(e) => Fail(e)
      case Applied(t) => Validate(t)
  }

  /** Construction succeeds exactly when `apply` and the fallbacks succeed and
      the completed config either uses a prefix of its own or meets every rule
      of the reserved namespace. */
  lemma ConstructEnforcesReservedNamespace(opts: seq<Option>)
    ensures Construct(opts) == Pass <==>
              var folded := FoldOptions(ZeroSettings, [Defaults] + opts);
              && folded.outcome.Pass?
              && Fallbacks(folded.settings).Applied?
              && (Fallbacks(folded.settings).cfg.protocolPrefix != DefaultPrefix
                  || ReservedNamespaceOk(Fallbacks(folded.settings).cfg))
  {
    var folded := FoldOptions(ZeroSettings, [Defaults] + opts);
    if folded.outcome.Pass? && Fallbacks(folded.settings).Applied? {
      ValidateIff(Fallbacks(folded.settings).cfg);
    }
  }

  /** The config `defaults` produces from the zero value. */
  function DefaultSettings(): Settings
  {
    DefaultsOf(ZeroSettings)
  }

  /** With no user options the node's config passes validation. */
  lemma DefaultsAreValid()
    ensures Construct([]) == Pass
  {
    FoldSnoc(ZeroSettings, [], Defaults);
    assert [Defaults] + [] == [] + [Defaults];
    var m := WithDefaultNamespaces(map[]);
    assert m == DefaultNamespaces;
  }

  /** Under the reserved prefix a bucket size other than 20 is refused. */
  lemma ReservedPrefixRejectsBucketSize(n: int)
    requires n != DefaultBucketSize
    ensures Construct([BucketSize(n)]) == Fail(WrongBucketSize)
  {
    FoldSnoc(ZeroSettings, [], Defaults);
    assert [] + [Defaults] == [Defaults];
    FoldSnoc(ZeroSettings, [Defaults], BucketSize(n));
  }

  /** Under the default prefix, disabling providers makes construction fail. */
  lemma ReservedPrefixNeedsProviders()
    ensures Construct([DisableProviders]) == Fail(ProvidersDisabled)
  {
    FoldSnoc(ZeroSettings, [], Defaults);
    assert [] + [Defaults] == [Defaults];
    FoldSnoc(ZeroSettings, [Defaults], DisableProviders);
  }

  /** Under the default prefix, disabling values makes construction fail. */
  lemma ReservedPrefixNeedsValues()
    ensures Construct([DisableValues]) == Fail(ValuesDisabled)
  {
    FoldSnoc(ZeroSettings, [], Defaults);
    assert [] + [Defaults] == [Defaults];
    FoldSnoc(ZeroSettings, [Defaults], DisableValues);
  }

  /** Adding a namespace under the reserved prefix leaves three entries, which
      validation refuses: extra namespaces need a prefix of their own. */
  lemma ExtraNamespaceNeedsOwnPrefix(ns: string, v: ValidatorKind)
    requires ns != "pk" && ns != "ipns"
    ensures Construct([NamespacedValidator(ns, v)]) == Fail(WrongNamespaceCount)
  {
    ConstructWithOneNamespace(ns, v);
    ThreeNamespacesRejected(ns, v);
  }

  /** One extra namespace on the defaults reaches validation with the completed table. */
  lemma ConstructWithOneNamespace(ns: string, v: ValidatorKind)
    ensures Construct([NamespacedValidator(ns, v)])
         == Validate(DefaultSettings().(validator := Namespaced(WithDefaultNamespaces(map[ns := v]))))
  {
    NamespacedOnDefaults(ns, v);
    ConstructOne(NamespacedValidator(ns, v));
    FallbacksOnDefaults(map[ns := v]);
  }

  /** On the defaults' empty table, `NamespacedValidator` leaves a one-entry table. */
  lemma NamespacedOnDefaults(ns: string, v: ValidatorKind)
    ensures RunOption(DefaultSettings(), NamespacedValidator(ns, v))
         == Applied(DefaultSettings().(validator := Namespaced(map[ns := v])))
  {
    var d := DefaultSettings();
    assert d.validator == Namespaced(map[]);
    assert d.validator.entries[ns := v] == map[ns := v];
  }

  /** Under the reserved prefix, a table with a third namespace fails validation. */
  lemma ThreeNamespacesRejected(ns: string, v: ValidatorKind)
    requires ns != "pk" && ns != "ipns"
    ensures Validate(DefaultSettings().(validator := Namespaced(WithDefaultNamespaces(map[ns := v]))))
         == Fail(WrongNamespaceCount)
  {
    var m := WithDefaultNamespaces(map[ns := v]);
    assert |m| == 3 by {
      assert m.Keys == {ns, "pk", "ipns"};
    }
    DefaultTableValidation(m);
  }

  /** Construction with a single user option that succeeds on the defaults. */
  lemma ConstructOne(o: Option)
    requires RunOption(DefaultSettings(), o).Applied?
    ensures Construct([o]) == match Fallbacks(RunOption(DefaultSettings(), o).cfg)
                              case Rejected(e) => Fail(e)
                              case Applied(t) => Validate(t)
  {
    DefaultsThenOne(o);
  }

  /** The fallbacks complete the table the defaults started. */
  lemma FallbacksOnDefaults(m: map<string, ValidatorKind>)
    ensures Fallbacks(DefaultSettings().(validator := Namespaced(m)))
         == Applied(DefaultSettings().(validator := Namespaced(WithDefaultNamespaces(m))))
  {
  }

  /** Under the defaults, validation depends on the namespace table alone. */
  lemma DefaultTableValidation(m: map<string, ValidatorKind>)
    ensures |m| != 2 ==> Validate(DefaultSettings().(validator := Namespaced(m))) == Fail(WrongNamespaceCount)
    ensures Validate(DefaultSettings().(validator := Namespaced(m))) == Pass <==> m == DefaultNamespaces
  {
    ValidateIff(DefaultSettings().(validator := Namespaced(m)));
  }

  /** `defaults` followed by one option that succeeds on the default config. */
  lemma DefaultsThenOne(o: Option)
    requires RunOption(DefaultSettings(), o).Applied?
    ensures FoldOptions(ZeroSettings, [Defaults] + [o]) == Folded(RunOption(DefaultSettings(), o).cfg, Pass)
  {
    FoldSnoc(ZeroSettings, [], Defaults);
    assert [] + [Defaults] == [Defaults];
    FoldSnoc(ZeroSettings, [Defaults], o);
  }

  /** Under a prefix of its own, a user's "pk" entry survives the fallbacks
      and validation, although no `Validator` option was given. */
  lemma PkOverrideKeptUnderOwnPrefix(prefix: string, v: ValidatorKind)
    requires prefix != DefaultPrefix
    ensures Construct([ProtocolPrefix(prefix), NamespacedValidator("pk", v)]) == Pass
    ensures var t := FoldOptions(ZeroSettings, [Defaults, ProtocolPrefix(prefix), NamespacedValidator("pk", v)]).settings;
            && Fallbacks(t).Applied?
            && Fallbacks(t).cfg.validator.Namespaced?
            && Fallbacks(t).cfg.validator.entries.Keys == {"pk", "ipns"}
            && Fallbacks(t).cfg.validator.entries["pk"] == v
  {
    PrefixThenPk(prefix, v);
    assert [Defaults] + [ProtocolPrefix(prefix), NamespacedValidator("pk", v)]
        == [Defaults, ProtocolPrefix(prefix), NamespacedValidator("pk", v)];
    var m := WithDefaultNamespaces(map["pk" := v]);
    assert m.Keys == {"pk", "ipns"};
  }

  /** The defaults, a prefix of the node's own, then a "pk" entry: both options succeed. */
  lemma PrefixThenPk(prefix: string, v: ValidatorKind)
    ensures FoldOptions(ZeroSettings, [Defaults, ProtocolPrefix(prefix), NamespacedValidator("pk", v)])
         == Folded(DefaultSettings().(protocolPrefix := prefix, validator := Namespaced(map["pk" := v])), Pass)
  {
    var d := DefaultSettings();
    FoldSnoc(ZeroSettings, [], Defaults);
    assert [] + [Defaults] == [Defaults];
    FoldSnoc(ZeroSettings, [Defaults], ProtocolPrefix(prefix));
    assert [Defaults] + [ProtocolPrefix(prefix)] == [Defaults, ProtocolPrefix(prefix)];
    assert RunOption(d, ProtocolPrefix(prefix)) == Applied(d.(protocolPrefix := prefix));
    FoldSnoc(ZeroSettings, [Defaults, ProtocolPrefix(prefix)], NamespacedValidator("pk", v));
    assert [Defaults, ProtocolPrefix(prefix)] + [NamespacedValidator("pk", v)]
        == [Defaults, ProtocolPrefix(prefix), NamespacedValidator("pk", v)];
    assert d.validator.entries["pk" := v] == map["pk" := v];
  }

  /** The `config` record, which the option closures update in place. */
  class Config {
    var validator: RecordValidator
    var validatorChanged: bool
    var mode: ModeOpt
    var protocolPrefix: string
    var bucketSize: int
    var concurrency: int
    var resiliency: int
    var maxRecordAge: Duration
    var enableProviders: bool
    var enableValues: bool
    var queryPeerFilter: FilterRef
    var protectAllBuckets: bool
    var protectedBuckets: int
    var routingTable: RoutingTableSettings
    var v1CompatibleMode: bool

    /** The record's current value. */
    function Value(): Settings
      reads this
    {
      Settings(validator, validatorChanged, mode, protocolPrefix, bucketSize, concurrency,
               resiliency, maxRecordAge, enableProviders, enableValues, queryPeerFilter,
               protectAllBuckets, protectedBuckets, routingTable, v1CompatibleMode)
    }

    /** A zero-valued record, as `var cfg config` declares it. */
    constructor ()
      ensures Value() == ZeroSettings
    {
      validator, validatorChanged, mode, protocolPrefix := Simple(NilValidator), false, ModeAuto, "";
      bucketSize, concurrency, resiliency, maxRecordAge := 0, 0, 0, 0;
      enableProviders, enableValues, queryPeerFilter := false, false, NoFilter;
      protectAllBuckets, protectedBuckets := false, 0;
      routingTable := RoutingTableSettings(0, 0, false, 0, NoFilter, false);
      v1CompatibleMode := false;
    }

    /** The `defaults` option closure, in the source's three blocks. */
    method ApplyDefaults()
      modifies this
      ensures Value() == DefaultsOf(old(Value()))
    {
      DefaultRecordHandling();
      DefaultRoutingTable();
      DefaultQueryParameters();
    }

    method DefaultRecordHandling()
      modifies this`validator, this`protocolPrefix, this`enableProviders, this`enableValues, this`queryPeerFilter
      ensures validator == Namespaced(map[]) && protocolPrefix == DefaultPrefix
      ensures enableProviders && enableValues && queryPeerFilter == AcceptAll
    {
      validator := Namespaced(map[]);
      protocolPrefix := DefaultPrefix;
      enableProviders := true;
      enableValues := true;
      queryPeerFilter := AcceptAll;
    }

    method DefaultRoutingTable()
      modifies this`routingTable, this`maxRecordAge
      ensures routingTable == old(routingTable).(latencyTolerance := Minute, refreshQueryTimeout := 1 * Minute,
                                                 refreshInterval := 10 * Minute, autoRefresh := true,
                                                 peerFilter := AcceptAll, considerLatency := false)
      ensures maxRecordAge == Hour * 36
    {
      routingTable := routingTable.(latencyTolerance := Minute, refreshQueryTimeout := 1 * Minute,
                                    refreshInterval := 10 * Minute, autoRefresh := true,
                                    peerFilter := AcceptAll, considerLatency := false);
      maxRecordAge := Hour * 36;
    }

    method DefaultQueryParameters()
      modifies this`bucketSize, this`concurrency, this`resiliency, this`protectAllBuckets,
               this`protectedBuckets, this`v1CompatibleMode
      ensures bucketSize == DefaultBucketSize && concurrency == 10 && resiliency == 3
      ensures !protectAllBuckets && protectedBuckets == DefaultProtectedBuckets && v1CompatibleMode
    {
      bucketSize := DefaultBucketSize;
      concurrency := 10;
      resiliency := 3;
      protectAllBuckets := false;
      protectedBuckets := DefaultProtectedBuckets;
      v1CompatibleMode := true;
    }

    /** Runs one option closure on this record. */
    method ApplyOption(opt: Option) returns (err: Outcome)
      modifies this
      ensures RunOption(old(Value()), opt) == if err.Pass? then Applied(Value()) else Rejected(err.error)
      ensures err.Fail? ==> Value() == old(Value())
    {
      err := Pass;
      if opt.Defaults? {
        ApplyDefaults();
      } else if RoutingTableOption(opt) {
        ApplyRoutingTableOption(opt);
      } else if ValidatorOption(opt) {
        err := ApplyValidatorOption(opt);
      } else if ProtocolOption(opt) {
        ApplyProtocolOption(opt);
      } else if QueryOption(opt) {
        ApplyQueryOption(opt);
      } else if ProtectionOption(opt) {
        ApplyProtectionOption(opt);
      } else {
        ApplyStorageOption(opt);
      }
    }

    method ApplyRoutingTableOption(opt: Option)
      requires RoutingTableOption(opt)
      modifies this`routingTable
      ensures RunOption(old(Value()), opt) == Applied(Value())
    {
      match opt {
        case RoutingTableLatencyTolerance(d) => routingTable := routingTable.(latencyTolerance := d);
        case RoutingTableRefreshQueryTimeout(d) => routingTable := routingTable.(refreshQueryTimeout := d);
        case RoutingTableRefreshPeriod(d) => routingTable := routingTable.(refreshInterval := d);
        case DisableAutoRefresh => routingTable := routingTable.(autoRefresh := false);
        case RoutingTableFilter(f) => routingTable := routingTable.(peerFilter := f);
        case EnableConsiderLatency => routingTable := routingTable.(considerLatency := true);
        case AvgBitsImprovedPerStep =>
        case AvgRoundTripPerStep =>
      }
    }

    method ApplyValidatorOption(opt: Option) returns (err: Outcome)
      requires ValidatorOption(opt)
      modifies this`validator, this`validatorChanged
      ensures RunOption(old(Value()), opt) == if err.Pass? then Applied(Value()) else Rejected(err.error)
      ensures err.Fail? ==> Value() == old(Value())
    {
      err := Pass;
      match opt {
        case Validator(v) =>
          validator := v;
          validatorChanged := true;
        case NamespacedValidator(ns, v) =>
          if validator.Namespaced? {
            validator := Namespaced(validator.entries[ns := v]);
          } else {
            err := Fail(NotANamespacedValidator);
          }
      }
    }

    method ApplyProtocolOption(opt: Option)
      requires ProtocolOption(opt)
      modifies this`protocolPrefix, this`mode, this`v1CompatibleMode
      ensures RunOption(old(Value()), opt) == Applied(Value())
    {
      match opt {
        case ProtocolPrefix(p) => protocolPrefix := p;
        case ProtocolExtension(ext) => protocolPrefix := protocolPrefix + ext;
        case Mode(m) => mode := m;
        case V1CompatibleMode(b) => v1CompatibleMode := b;
      }
    }

    method ApplyQueryOption(opt: Option)
      requires QueryOption(opt)
      modifies this`bucketSize, this`concurrency, this`resiliency, this`queryPeerFilter
      ensures RunOption(old(Value()), opt) == Applied(Value())
    {
      match opt {
        case BucketSize(n) => bucketSize := n;
        case Concurrency(n) => concurrency := n;
        case Resiliency(n) => resiliency := n;
        case QueryFilter(f) => queryPeerFilter := f;
      }
    }

    method ApplyProtectionOption(opt: Option)
      requires ProtectionOption(opt)
      modifies this`protectAllBuckets, this`protectedBuckets
      ensures RunOption(old(Value()), opt) == Applied(Value())
    {
      match opt {
        case EnableProtectAllBuckets => protectAllBuckets := true;
        case ProtectedBuckets(n) => protectedBuckets := n;
      }
    }

    method ApplyStorageOption(opt: Option)
      requires StorageOption(opt)
      modifies this`maxRecordAge, this`enableProviders, this`enableValues
      ensures RunOption(old(Value()), opt) == Applied(Value())
    {
      match opt {
        case Datastore =>
        case MaxRecordAge(d) => maxRecordAge := d;
        case DisableProviders => enableProviders := false;
        case DisableValues => enableValues := false;
        case ProvidersOptions =>
        case BootstrapPeers =>
      }
    }

    /** `apply`: runs the options in order and stops at the first failure,
      naming its index. */
    method Apply(opts: seq<Option>) returns (err: Outcome)
      modifies this
      ensures FoldOptions(old(Value()), opts) == Folded(Value(), err)
    {
      ghost var s0 := Value();
      var i := 0;
      while i < |opts|
        invariant 0 <= i <= |opts|
        invariant FoldOptions(s0, opts[..i]) == Folded(Value(), Pass)
      {
        ghost var before := Value();
        var e := ApplyOption(opts[i]);
        if e.Fail? {
          FirstFailure(s0, opts, i, e.error);
          return Fail(OptionFailed(i, e.error));
        }
        var next := opts[..i + 1];
        assert next[..i] == opts[..i];
        i := i + 1;
      }
      assert opts[..i] == opts;
      return Pass;
    }

    /** `applyFallbacks`: completes the default namespaced validator. */
    method ApplyFallbacks() returns (err: Outcome)
      modifies this
      ensures Fallbacks(old(Value())) == if err.Pass? then Applied(Value()) else Rejected(err.error)
      ensures err.Fail? ==> Value() == old(Value())
    {
      err := Pass;
      if !validatorChanged {
        if validator.Namespaced? {
          var nsval := validator.entries;
          if "pk" !in nsval {
            nsval := nsval["pk" := PublicKeyValidator];
          }
          if "ipns" !in nsval {
            nsval := nsval["ipns" := IpnsValidator];
          }
          validator := Namespaced(nsval);
        } else {
          err := Fail(ValidatorChangedUnmarked);
        }
      }
    }
  }
}

/** Reports that carry the hash of their own other fields. */
module SealedReports {
  import opened Wrappers

  datatype Receipt = NoReceipt | ObjectReceipt | OtherReceipt

  /** The six planes of an episode's result; anything but JSON `true` is false here. */
  datatype Planes = Planes(
    benchmarkVerifierPass: bool, agentProtocolValid: bool, trajectoryEligible: bool,
    infrastructureValid: bool, securityValid: bool, sftAdmitted: bool)

  datatype Attempt = Attempt(
    id: nat, result: Option<Planes>, exact64kEligible: bool, decisionOnlyLossMask: bool,
    publicToolThoughtSupervised: bool, truncationApplied: bool,
    trajectoryReceipt: Receipt, decisionReceipt: Receipt, tokenReceipt: Receipt)

  datatype Key =
    | Status | Attempts | CanaryPassed | TrajectoryCount | ExactCount | CollectionAllowed
    | ProviderEpisodes | ProviderCalls | FailureReason | ReportHash | Detail(name: string)

  /** The `status` texts the canary writes. */
  datatype CanaryStatus =
    | CanaryRunning
    | StoppedInfrastructureInvalid
    | StoppedInfrastructureOrSecurityInvalid
    | FailedClosed
    | PassedCollectionAllowed

  /** The `failure_reason` texts, by what they name. */
  datatype Cause =
    | PreflightFailed(error: string)
    | EpisodeRaised(episode: string, error: string)
    | InvalidResultPlane(episode: string)
    | GateFailedIn(episode: string)
    | GateFailedOverall

  datatype Value =
    | Null | Flag(flag: bool) | Count(count: nat) | Text(text: string)
    | Stage(status: CanaryStatus) | Because(cause: Cause) | List(attempts: seq<Attempt>)

  type Report = map<Key, Value>

  /** The content hash, whatever it is. */
  type Hash = Report -> string

  /** `_seal_report`. */
  function Seal(hash: Hash, value: Report): Report {
    var base := value - {ReportHash};
    base[ReportHash := Text(hash(base))]
  }

  /** `_validated_content_hash` on any field. */
  function Validate(hash: Hash, value: Report, field: Key): Option<Report> {
    var rest := value - {field};
    if field in value && value[field].Text? && hash(rest) == value[field].text
    then Some(rest[field := value[field]])
    else None
  }

  /** Validation accepts exactly the reports that sealing leaves as they are, and returns them
      whole. */
  lemma ValidIffSealed(hash: Hash, value: Report)
    ensures Validate(hash, value, ReportHash) == if Seal(hash, value) == value then Some(value) else None
  {
    var rest := value - {ReportHash};
    if Validate(hash, value, ReportHash).Some? {
      assert rest[ReportHash := value[ReportHash]] == value;
      assert Seal(hash, value) == value;
    } else if Seal(hash, value) == value {
      assert value[ReportHash] == Seal(hash, value)[ReportHash];
    }
  }

  /** Sealing forgets an earlier seal: a sealed report is valid, and sealing it again changes
      nothing. */
  lemma SealValidates(hash: Hash, value: Report)
    ensures Validate(hash, Seal(hash, value), ReportHash) == Some(Seal(hash, value))
    ensures Seal(hash, Seal(hash, value)) == Seal(hash, value)
    ensures forall key :: key != ReportHash ==> (key in Seal(hash, value) <==> key in value)
    ensures forall key :: key != ReportHash && key in value ==> Seal(hash, value)[key] == value[key]
  {
    assert Seal(hash, value) - {ReportHash} == value - {ReportHash};
    ValidIffSealed(hash, Seal(hash, value));
  }

  /** A sealed report changed anywhere and still accepted exhibits two contents of one hash. */
  lemma TamperingCollides(hash: Hash, value: Report, changed: Report)
    requires Validate(hash, changed, ReportHash).Some? && changed != Seal(hash, value)
    requires changed[ReportHash] == Seal(hash, value)[ReportHash]
    ensures changed - {ReportHash} != value - {ReportHash}
    ensures hash(changed - {ReportHash}) == hash(value - {ReportHash})
  {
    ValidIffSealed(hash, changed);
  }
}

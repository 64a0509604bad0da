/** Update decision policy (`ota/decision.rs`, `ota/version.rs`): compare a running and an
    offered version, honour a refused version, and gate on the persisted records. */
module Decision {
  import opened Common

  datatype Version = Version(major: u16, minor: u16, patch: u16)

  datatype Ordering = Less | Equal | Greater

  function CmpInt(a: int, b: int): Ordering {
    if a < b then Less else if a == b then Equal else Greater
  }

  /** `Ord for Version`: major decides first, then minor, then patch. */
  function Cmp(a: Version, b: Version): Ordering {
    match CmpInt(a.major, b.major)
    case Equal =>
      (match CmpInt(a.minor, b.minor)
       case Equal => CmpInt(a.patch, b.patch)
       case other => other)
    case other => other
  }

  datatype UpdateDecision = Apply | Skip | Reject

  function DecideUpdate(running: Version, offered: Version): UpdateDecision {
    match Cmp(offered, running)
    case Greater => UpdateDecision.Apply
    case Equal => UpdateDecision.Skip
    case Less => UpdateDecision.Reject
  }

  datatype BlockedBy = AttemptUnresolved | ReportPending

  datatype Admission = Open | Blocked(cause: BlockedBy)

  function FromRecords(attemptExists: bool, reportUndelivered: bool): Admission {
    if attemptExists then Admission.Blocked(AttemptUnresolved)
    else if reportUndelivered then Admission.Blocked(ReportPending)
    else Open
  }

  datatype OfferDecision = Apply | Skip | Reject | Refused | Blocked

  function DecideOffer(running: Version, offered: Version, refused: Option<Version>, admission: Admission)
    : OfferDecision
  {
    match DecideUpdate(running, offered)
    case Skip => OfferDecision.Skip
    case Reject => OfferDecision.Reject
    case Apply =>
      if refused == Some(offered) then OfferDecision.Refused
      else if admission.Blocked? then OfferDecision.Blocked
      else OfferDecision.Apply
  }

  /** A version as one number, most significant component first. */
  function Weight(v: Version): nat {
    (v.major * 0x1_0000 + v.minor) * 0x1_0000 + v.patch
  }

  /** The comparison is the order of the versions read as 48-bit numbers, so it is a strict
      total order and following `Apply` decisions can never lead back to an earlier version. */
  lemma DecideUpdateIsNumeric(running: Version, offered: Version)
    ensures DecideUpdate(running, offered).Apply? <==> Weight(offered) > Weight(running)
    ensures DecideUpdate(running, offered).Skip? <==> offered == running
    ensures DecideUpdate(running, offered).Reject? <==> Weight(offered) < Weight(running)
  {
    if offered.major < running.major {
      assert offered.major + 1 <= running.major;
    } else if offered.major > running.major {
      assert offered.major >= running.major + 1;
    }
  }

  /** An offer starts an update exactly when it is newer, is not the refused version, and no
      record stands in the way. A refused version is reported as such even while blocked, and an
      unresolved attempt is the cause named before an undelivered report. */
  lemma DecideOfferExact(running: Version, offered: Version, refused: Option<Version>, attempt: bool, undelivered: bool)
    ensures var newer, admission := Weight(offered) > Weight(running), FromRecords(attempt, undelivered);
            var d := DecideOffer(running, offered, refused, admission);
            && (d.Apply? <==> newer && refused != Some(offered) && !attempt && !undelivered)
            && (d.Refused? <==> newer && refused == Some(offered))
            && (d.Blocked? <==> newer && refused != Some(offered) && (attempt || undelivered))
            && (d.Skip? <==> offered == running)
            && (d.Reject? <==> Weight(offered) < Weight(running))
            && (admission == Admission.Blocked(AttemptUnresolved) <==> attempt)
            && (admission == Admission.Blocked(ReportPending) <==> undelivered && !attempt)
  {
    DecideUpdateIsNumeric(running, offered);
  }
}

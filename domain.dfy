/** Values shared by the scanner, the enforcement engine, the orchestrator and the bot. */
module Domain {

  datatype Option<T> = None | Some(value: T) {
    function GetOr(default: T): T {
      match this
      case Some(v) => v
      case None => default
    }
  }

  /** The outcome of a call into a collaborator that may fail (a rejected promise, a thrown error). */
  datatype Outcome<T> = Ok(value: T) | Failed(error: string)

  /** A JavaScript value that is either a string or undefined/null, tested for truthiness. */
  predicate Truthy(s: Option<string>) {
    s.Some? && s.value != ""
  }

  /** A raw search hit as a content source returns it (before scoring). */
  datatype Candidate = Candidate(
    id: string,
    platform: string,
    content: string,
    url: string,
    engagement: nat,
    imageUrl: Option<string>)

  /** A candidate that passed the similarity threshold: the candidate's own fields plus its score. */
  datatype Match = Match(candidate: Candidate, similarity: real, matched: bool)

  /** The four license categories offered by the registration dialogue. */
  datatype License = Commercial | NonCommercial | NoDerivatives | Custom

  /** The metadata a completed registration dialogue hands to the orchestrator. */
  datatype IpData = IpData(
    name: string,
    description: string,
    category: string,
    creator: string,
    mediaUrl: Option<string>,
    keywords: seq<string>,
    license: License)

  /**
   * An asset in the monitoring registry. `pending` is None until the first scan
   * tick that finds something (the field is created lazily).
   */
  datatype MonitoredAsset = MonitoredAsset(
    ipId: string,
    userId: string,
    data: IpData,
    txHash: string,
    pending: Option<seq<Match>>)

  /** The pending-violation list of an asset, an absent list read as empty. */
  function PendingOf(a: MonitoredAsset): (r: seq<Match>)
    ensures a.pending.None? ==> r == []
    ensures a.pending.Some? ==> r == a.pending.value
  {
    if a.pending.Some? then a.pending.value else []
  }

  /** The first n elements of s, or all of them when there are fewer (Array.prototype.slice(0, n)). */
  function Take<T>(s: seq<T>, n: nat): (r: seq<T>)
    ensures |r| <= n && |r| <= |s|
    ensures |r| == if |s| < n then |s| else n
    ensures r == s[..|r|]
  {
    if |s| <= n then s else s[..n]
  }
}

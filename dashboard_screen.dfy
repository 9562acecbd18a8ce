/** The dashboard screen: the call counts, the success rate and the recent
    calls the backend reports. */
module DashboardScreen {
  import opened Models
  import Routes
  import Tables
  import opened Api

  /** A status badge: its colour classes and its label. */
  datatype Badge = Badge(color: string, caption: string)

  const CompletedBadge: Badge := Badge("bg-green-100 text-green-800", "Completed")
  const InProgressBadge: Badge := Badge("bg-blue-100 text-blue-800", "In Progress")
  const FailedBadge: Badge := Badge("bg-red-100 text-red-800", "Failed")
  const InitiatedBadge: Badge := Badge("bg-yellow-100 text-yellow-800", "Initiated")

  /** `getStatusBadge`: the badge of a call status, the "Initiated" one for a
      status the table does not list. */
  function StatusBadge(status: string): Badge {
    match status
    case "completed" => CompletedBadge
    case "in_progress" => InProgressBadge
    case "failed" => FailedBadge
    case _ => InitiatedBadge
  }

  /** Each of the four call statuses gets a badge with a label of its own,
      and every other text gets the badge of an initiated call. */
  lemma StatusBadges(status: string)
    ensures forall a: CallStatus, b: CallStatus :: a != b ==>
              StatusBadge(a.Name()).caption != StatusBadge(b.Name()).caption
    ensures (forall st: CallStatus :: status != st.Name()) ==> StatusBadge(status) == StatusBadge(Initiated.Name())
  {
    forall a: CallStatus, b: CallStatus | a != b
      ensures StatusBadge(a.Name()).caption != StatusBadge(b.Name()).caption
    {
      match a
      case Initiated =>
      case InProgress =>
      case Completed =>
      case Failed =>
    }
    if forall st: CallStatus :: status != st.Name() {
      assert status != Completed.Name() && status != InProgress.Name() && status != Failed.Name();
    }
  }

  /** The success rate in percent: `completed / total * 100` rounded to the
      nearest integer, halves upwards like `Math.round`, and 0 without calls. */
  function SuccessRate(s: Routes.Stats): (r: int)
    ensures s.total == 0 ==> r == 0
    ensures s.total > 0 ==> 2 * s.total * r <= 200 * s.completed + s.total < 2 * s.total * (r + 1)
  {
    if s.total > 0 then (200 * s.completed + s.total) / (2 * s.total) else 0
  }

  /** With no more completed calls than calls in all, the rate is a percentage. */
  lemma SuccessRateIsPercent(s: Routes.Stats)
    requires s.completed <= s.total
    ensures 0 <= SuccessRate(s) <= 100
  {
    var t, r := s.total, SuccessRate(s);
    if t > 0 {
      assert 200 * s.completed + t <= 201 * t;
      if r > 100 {
        ScaleUp(2 * t, r, 101);
      }
      if r < 0 {
        ScaleUp(2 * t, 0, r + 1);
      }
    }
  }

  /** Multiplying by a positive number keeps the order. */
  lemma ScaleUp(a: int, x: int, y: int)
    requires a > 0 && x >= y
    ensures a * x >= a * y
  {
  }

  /** When the ratio is a whole percentage, rounding leaves it as it is. */
  lemma ExactRate(s: Routes.Stats)
    requires s.total > 0 && (100 * s.completed) % s.total == 0
    ensures SuccessRate(s) == 100 * s.completed / s.total
  {
    var t, r, q := s.total, SuccessRate(s), 100 * s.completed / s.total;
    assert 200 * s.completed == 2 * t * q;
    if r > q {
      ScaleUp(2 * t, r, q + 1);
    }
    if r < q {
      ScaleUp(2 * t, q, r + 1);
    }
  }

  /** The rate of the counts the backend computes is always a percentage. */
  lemma BackendRateIsPercent(calls: seq<Tables.CallRow>)
    ensures 0 <= SuccessRate(Routes.DashboardStats(calls)) <= 100
  {
    Routes.StatusCountsPartition(calls);
    SuccessRateIsPercent(Routes.DashboardStats(calls));
  }

  /** The `data` of the dashboard reply: the counts and the recent calls. */
  datatype DashboardData = DashboardData(stats: Routes.Stats, recentCalls: seq<Routes.CallListing>)

  /** The `Dashboard` component's state. */
  class Screen {
    var stats: Routes.Stats
    var recentCalls: seq<Routes.CallListing>
    var loading: bool

    constructor ()
      ensures stats == Routes.Stats(0, 0, 0, 0) && SuccessRate(stats) == 0
      ensures recentCalls == [] && loading
    {
      stats := Routes.Stats(0, 0, 0, 0);
      recentCalls := [];
      loading := true;
    }

    /** `fetchDashboardData`: a successful reply replaces the counts and the
        recent calls together; anything else keeps both. Loading ends either way. */
    method FetchDashboardData(reply: Reply<DashboardData>)
      modifies this
      ensures reply.Succeeded() ==> stats == reply.data.stats && recentCalls == reply.data.recentCalls
      ensures !reply.Succeeded() ==> stats == old(stats) && recentCalls == old(recentCalls)
      ensures !loading
    {
      if reply.Succeeded() {
        stats := reply.data.stats;
        recentCalls := reply.data.recentCalls;
      }
      loading := false;
    }
  }
}

/** The call-results screen: the list of calls, their badges and durations,
    and the detail view of one call. */
module CallResultsScreen {
  import opened Wrappers
  import opened Models
  import Text
  import DashboardScreen
  import opened Api

  // ---------------------------------------------------------------------
  // Badges
  // ---------------------------------------------------------------------

  /** The icons the badges draw. */
  datatype Icon = CheckCircle | Clock | XCircle | MapPin | AlertTriangle | Phone

  /** A badge: its colour classes, its icon and its label. */
  datatype Badge = Badge(color: string, icon: Icon, caption: string)

  const InitiatedBadge: Badge := Badge("bg-yellow-100 text-yellow-800", Clock, "Initiated")

  /** `getStatusBadge`: the badge of a call status, the "Initiated" one for a
      status the table does not list. */
  function StatusBadge(status: string): Badge {
    match status
    case "completed" => Badge("bg-green-100 text-green-800", CheckCircle, "Completed")
    case "in_progress" => Badge("bg-blue-100 text-blue-800", Clock, "In Progress")
    case "failed" => Badge("bg-red-100 text-red-800", XCircle, "Failed")
    case _ => InitiatedBadge
  }

  /** This screen and the dashboard show every status, known or not, with the
      same colour and the same label; this one adds an icon. */
  lemma StatusBadgeAgreesWithDashboard(status: string)
    ensures StatusBadge(status).color == DashboardScreen.StatusBadge(status).color
    ensures StatusBadge(status).caption == DashboardScreen.StatusBadge(status).caption
    ensures (forall st: CallStatus :: status != st.Name()) ==> StatusBadge(status) == InitiatedBadge
  {
    if forall st: CallStatus :: status != st.Name() {
      assert status != Completed.Name() && status != InProgress.Name() && status != Failed.Name();
    }
  }

  /** The outcomes that have a badge of their own. */
  const KnownOutcomes: seq<string> :=
    ["In-Transit Update", "Arrival Confirmation", "Emergency Detected", "Uncooperative Driver", "Call Failed"]

  const NeutralColor: string := "bg-gray-100 text-gray-800"

  /** `getOutcomeBadge`: no badge for a missing or empty outcome; otherwise
      a badge labelled with the outcome itself, coloured after it when it is
      one of the known outcomes and neutral when it is not. */
  function OutcomeBadge(outcome: Option<string>): (b: Option<Badge>)
    ensures b.None? <==> outcome.None? || outcome.value == ""
    ensures b.Some? ==> b.value.caption == outcome.value
    ensures b.Some? && outcome.value !in KnownOutcomes ==> b.value.color == NeutralColor && b.value.icon == Phone
  {
    match outcome
    case None => None
    case Some(o) =>
      if o == "" then None
      else
        var (color, icon) := match o
          case "In-Transit Update" => ("bg-blue-100 text-blue-800", MapPin)
          case "Arrival Confirmation" => ("bg-green-100 text-green-800", CheckCircle)
          case "Emergency Detected" => ("bg-red-100 text-red-800", AlertTriangle)
          case "Uncooperative Driver" => ("bg-orange-100 text-orange-800", XCircle)
          case "Call Failed" => ("bg-red-100 text-red-800", XCircle)
          case _ => (NeutralColor, Phone);
        Some(Badge(color, icon, o))
  }

  /** Each known outcome has a colour of its own kind: none is drawn neutral. */
  lemma KnownOutcomesColored(i: nat)
    requires i < |KnownOutcomes|
    ensures OutcomeBadge(Some(KnownOutcomes[i])).Some?
    ensures OutcomeBadge(Some(KnownOutcomes[i])).value.color != NeutralColor
  {
  }

  // ---------------------------------------------------------------------
  // Durations
  // ---------------------------------------------------------------------

  /** JavaScript's `d % 60`: the remainder takes the sign of `d`. */
  function TruncatedRem(d: int): (r: int)
    ensures -60 < r < 60 && (d - r) % 60 == 0
    ensures r == 0 || (r < 0 <==> d < 0)
  {
    if d >= 0 then d % 60 else -((-d) % 60)
  }

  /** The seconds part of `formatDuration`: two digits for 0..59. */
  function SecondsText(s: int): string {
    Text.PadStart(Text.IntToString(s), 2, '0')
  }

  /** `formatDuration`: "N/A" for a missing or zero duration, otherwise the
      minutes (`Math.floor(d / 60)`), a colon and the seconds (`d % 60`)
      padded to two characters with zeros. */
  function FormatDuration(duration: Option<int>): string {
    match duration
    case None => "N/A"
    case Some(d) =>
      if d == 0 then "N/A"
      else Text.IntToString(d / 60) + ":" + SecondsText(TruncatedRem(d))
  }

  /** A positive duration reads back from its text: the part before the colon
      is the whole minutes, the two digits after it the remaining seconds, and
      minutes * 60 + seconds is the duration. */
  lemma FormatDurationReadsBack(d: int)
    requires d > 0
    ensures ReadsBackAs(FormatDuration(Some(d)), d / 60, d % 60) && (d / 60) * 60 + d % 60 == d
  {
    assert FormatDuration(Some(d)) == Text.NatToString(d / 60) + ":" + SecondsText(d % 60);
    MinutesSecondsReadBack(d / 60, d % 60);
  }

  /** `r` is "minutes:ss" with the minutes in decimal and the seconds in two
      decimal digits. */
  ghost predicate ReadsBackAs(r: string, minutes: nat, seconds: nat) {
    var k := |r| - 3;
    && k >= 1 && r[k] == ':'
    && Text.AllDigits(r[..k]) && Text.AllDigits(r[k + 1..])
    && Text.ParseNat(r[..k]) == minutes && Text.ParseNat(r[k + 1..]) == seconds
  }

  lemma MinutesSecondsReadBack(m: nat, s: int)
    requires 0 <= s < 60
    ensures ReadsBackAs(Text.NatToString(m) + ":" + SecondsText(s), m, s)
  {
    SecondsReadBack(s);
    Text.ParseNatToString(m);
    ColonReadsBack(Text.NatToString(m), SecondsText(s), m, s);
  }

  /** Decimal minutes, a colon and two decimal digits read back as the
      numbers they were made from. */
  lemma ColonReadsBack(mt: string, st: string, m: nat, s: nat)
    requires |mt| >= 1 && |st| == 2 && Text.AllDigits(mt) && Text.AllDigits(st)
    requires Text.ParseNat(mt) == m && Text.ParseNat(st) == s
    ensures ReadsBackAs(mt + ":" + st, m, s)
  {
    var r := mt + ":" + st;
    ColonSplit(mt, st);
    assert r[..|r| - 3] == mt && r[|r| - 2..] == st;
  }

  /** The parts of "minutes:ss" around its colon. */
  lemma ColonSplit(mt: string, st: string)
    requires |st| == 2
    ensures var r := mt + ":" + st;
            && r[|r| - 3] == ':' && r[..|r| - 3] == mt && r[|r| - 2..] == st
  {
    var r := mt + ":" + st;
    assert r[..|mt|] == mt;
    assert r[|mt| + 1..] == st;
  }

  /** The seconds text of 0..59 is two digits that read back as the number. */
  lemma SecondsReadBack(s: int)
    requires 0 <= s < 60
    ensures |SecondsText(s)| == 2 && Text.AllDigits(SecondsText(s))
    ensures Text.ParseNat(SecondsText(s)) == s
  {
    var t := Text.NatToString(s);
    Text.ParseNatToString(s);
    if s < 10 {
      var p := SecondsText(s);
      assert p == ['0'] + t;
      assert p[..1] == ['0'];
    } else {
      assert s / 10 < 10;
      assert |t| == 2;
    }
  }

  /** A zero or missing duration shows as "N/A", the falsy case of the source. */
  lemma ZeroDurationNotAvailable()
    ensures FormatDuration(Some(0)) == "N/A" && FormatDuration(None) == "N/A"
  {
  }

  // ---------------------------------------------------------------------
  // The screen's state
  // ---------------------------------------------------------------------

  /** The `CallResults` component's state; call listings and details are the
      JSON objects the backend sends. */
  class Screen {
    var calls: seq<Dict>
    var selectedCall: Option<Dict>
    var loading: bool
    var detailsLoading: bool

    constructor ()
      ensures calls == [] && selectedCall.None? && loading && !detailsLoading
    {
      calls, selectedCall := [], None;
      loading, detailsLoading := true, false;
    }

    /** `fetchCalls`: a successful reply replaces the list; loading ends either way. */
    method FetchCalls(reply: Reply<seq<Dict>>)
      modifies this
      ensures reply.Succeeded() ==> calls == reply.data
      ensures !reply.Succeeded() ==> calls == old(calls)
      ensures !loading && selectedCall == old(selectedCall) && detailsLoading == old(detailsLoading)
    {
      if reply.Succeeded() {
        calls := reply.data;
      }
      loading := false;
    }

    /** The first half of `fetchCallDetails`, up to the request: the detail
        view is loading. */
    method StartCallDetails()
      modifies this
      ensures detailsLoading
      ensures calls == old(calls) && selectedCall == old(selectedCall) && loading == old(loading)
    {
      detailsLoading := true;
    }

    /** The second half of `fetchCallDetails`, once the request is answered:
        a successful reply is shown, an exception clears the detail view, a
        reply without success leaves it as it was; loading ends either way. */
    method FinishCallDetails(reply: Reply<Dict>)
      modifies this
      ensures reply.Succeeded() ==> selectedCall == Some(reply.data)
      ensures reply.Answered? && !reply.success ==> selectedCall == old(selectedCall)
      ensures reply.Threw? ==> selectedCall.None?
      ensures !detailsLoading && calls == old(calls) && loading == old(loading)
    {
      match reply {
        case Answered(success, data) =>
          if success {
            selectedCall := Some(data);
          }
        case Threw =>
          selectedCall := None;
      }
      detailsLoading := false;
    }

    /** Closing the detail view. */
    method Close()
      modifies this
      ensures selectedCall.None?
      ensures calls == old(calls) && loading == old(loading) && detailsLoading == old(detailsLoading)
    {
      selectedCall := None;
    }
  }
}

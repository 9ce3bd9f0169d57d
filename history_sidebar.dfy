/** The history sidebar of the browser client: it loads the caller's past prompts, lists each
    as a shortened preview with a relative age ("5m ago"), and hands a clicked prompt back to
    the chat so that it can be sent again.

    The clock, `new Date(...)` parsing and `toLocaleDateString` are parameters: an age is the
    elapsed time in milliseconds, or None when the stored date does not parse. */
module HistorySidebar {
  import opened Common
  import opened Text
  import ChatRoute

  // ---------------------------------------------------------------- relative dates

  const MsPerMinute: nat := 60_000
  const MsPerHour: nat := 3_600_000
  const MsPerDay: nat := 86_400_000
  const MsPerWeek: nat := 604_800_000

  /** The buckets of formatDate. */
  datatype Age = JustNow | MinutesAgo(minutes: nat) | HoursAgo(hours: nat) | DaysAgo(days: nat) | OnDate

  /** formatDate's bucketing: whole minutes (rounded down, so a date in the future is "just
      now"), then whole hours of those minutes, then whole days of those hours. An unparsable
      date makes every comparison false and lands on the absolute date. Each bucket covers
      one range of elapsed milliseconds, the ranges together cover every value, and the number
      shown is the elapsed time in that bucket's unit, rounded down. */
  function AgeOf(elapsedMs: Option<int>): (a: Age)
    ensures elapsedMs.None? ==> a == OnDate
    ensures elapsedMs.Some? ==>
      var e := elapsedMs.value;
      && (a.JustNow? <==> e < MsPerMinute)
      && (a.MinutesAgo? <==> MsPerMinute <= e < MsPerHour)
      && (a.HoursAgo? <==> MsPerHour <= e < MsPerDay)
      && (a.DaysAgo? <==> MsPerDay <= e < MsPerWeek)
      && (a.OnDate? <==> MsPerWeek <= e)
    ensures a.MinutesAgo? ==> 1 <= a.minutes <= 59 && a.minutes == elapsedMs.value / MsPerMinute
    ensures a.HoursAgo? ==> 1 <= a.hours <= 23 && a.hours == elapsedMs.value / MsPerHour
    ensures a.DaysAgo? ==> 1 <= a.days <= 6 && a.days == elapsedMs.value / MsPerDay
  {
    match elapsedMs
    case None => OnDate
    case Some(e) =>
      // Dafny's division rounds down for a positive divisor, as Math.floor does.
      var diffMins := e / 60000;
      if diffMins < 1 then JustNow
      else if diffMins < 60 then MinutesAgo(diffMins)
      else
        var diffHours := diffMins / 60;
        assert diffHours == e / MsPerHour;
        if diffHours < 24 then HoursAgo(diffHours)
        else
          var diffDays := diffHours / 24;
          assert diffDays == e / MsPerDay;
          if diffDays < 7 then DaysAgo(diffDays) else OnDate
  }

  /** "{n}{unit} ago": never "Just now", whose last letter is not `o`. */
  function Ago(n: nat, unit: char): (text: string)
    ensures |text| > 4 && text[|text| - 4..] == " ago" && text != "Just now"
  {
    var t := NatToString(n) + [unit] + " ago";
    assert t[|t| - 1] == 'o' && "Just now"[7] == 'w';
    t
  }

  /** `formatDate(createdAt)`: "Just now", "{n}m ago", "{n}h ago", "{n}d ago", or the
      locale's rendering of the date. Within the last week the label is "Just now" exactly
      under a minute, and otherwise ends with " ago"; older or unparsable dates show the
      locale's text. */
  function FormatDate(elapsedMs: Option<int>, localeDate: string): (text: string)
    ensures AgeOf(elapsedMs).OnDate? ==> text == localeDate
    ensures !AgeOf(elapsedMs).OnDate? ==> (text == "Just now" <==> AgeOf(elapsedMs).JustNow?)
    ensures !AgeOf(elapsedMs).OnDate? && !AgeOf(elapsedMs).JustNow? ==>
      |text| > 4 && text[|text| - 4..] == " ago"
  {
    match AgeOf(elapsedMs)
    case JustNow => "Just now"
    case MinutesAgo(m) => Ago(m, 'm')
    case HoursAgo(h) => Ago(h, 'h')
    case DaysAgo(d) => Ago(d, 'd')
    case OnDate => localeDate
  }

  /** The relative labels read back: the label is a number of one or two digits followed by
      its unit, and the number is the elapsed time in that unit. */
  lemma {:induction false} RelativeLabelReadsBack(elapsedMs: int, localeDate: string)
    requires MsPerMinute <= elapsedMs < MsPerWeek
    ensures var text := FormatDate(Some(elapsedMs), localeDate);
      var unit := if elapsedMs < MsPerHour then MsPerMinute
                  else if elapsedMs < MsPerDay then MsPerHour else MsPerDay;
      var n := |text| - 5;
      && 1 <= n <= 2
      && (forall i :: 0 <= i < n ==> IsDigit(text[i]))
      && DigitsValue(text[..n]) == elapsedMs / unit
      && text[n..] == [if unit == MsPerMinute then 'm' else if unit == MsPerHour then 'h' else 'd'] + " ago"
  {
    var a := AgeOf(Some(elapsedMs));
    var k: nat := if a.MinutesAgo? then a.minutes else if a.HoursAgo? then a.hours else a.days;
    var text := FormatDate(Some(elapsedMs), localeDate);
    var digits := NatToString(k);
    assert k < 60;
    assert |digits| <= 2 by {
      if k >= 10 {
        assert NatToString(k) == NatToString(k / 10) + [DigitChar(k % 10)];
      }
    }
    assert text[..|digits|] == digits;
    NatToStringValue(k);
  }

  // ---------------------------------------------------------------- previews

  /** Longest prompt shown in full. */
  const PreviewLength: nat := 60
  const Ellipsis: char := '…'

  /** The item text: the first 60 characters and an ellipsis for a longer prompt, the prompt
      itself otherwise. */
  function Preview(prompt: string): (shown: string)
    ensures |shown| <= PreviewLength + 1
    ensures |prompt| > PreviewLength ==> shown == prompt[..PreviewLength] + [Ellipsis]
    ensures |prompt| > PreviewLength ==> |shown| == PreviewLength + 1
    ensures |prompt| <= PreviewLength ==> shown == prompt
    ensures exists k :: 0 <= k <= |prompt| && (shown == prompt[..k] || shown == prompt[..k] + [Ellipsis])
  {
    if |prompt| > PreviewLength then prompt[..PreviewLength] + [Ellipsis]
    else
      assert prompt == prompt[..|prompt|];
      prompt
  }

  /** Previewing a preview changes nothing. */
  lemma PreviewIdempotent(prompt: string)
    ensures Preview(Preview(prompt)) == Preview(prompt)
  {
    if |prompt| > PreviewLength {
      var shown := Preview(prompt);
      assert shown[..PreviewLength] == prompt[..PreviewLength];
    }
  }

  /** Two prompts share a preview only when they are equal or both long and agree on their
      first 60 characters. */
  lemma PreviewCollision(p: string, q: string)
    requires Preview(p) == Preview(q)
    ensures p == q || (|p| > PreviewLength && |q| > PreviewLength && p[..PreviewLength] == q[..PreviewLength])
  {
    if |p| > PreviewLength && |q| > PreviewLength {
      assert Preview(p)[..PreviewLength] == p[..PreviewLength];
      assert Preview(q)[..PreviewLength] == q[..PreviewLength];
    }
  }

  // ---------------------------------------------------------------- the list

  /** What `api.get('/chat/history')` produced: the body's `history` (None when it is absent),
      or a failure of the request. */
  datatype FetchOutcome = Fetched(history: Option<seq<ChatRoute.Entry>>) | FetchFailed

  const LoadErrorText := "Could not load history"

  /** One list item: the preview and the relative date. */
  datatype Row = Row(text: string, date: string)

  /** The items of the list, in the order of the loaded history. */
  function Rows(history: seq<ChatRoute.Entry>, now: int, localeDate: nat -> string): (rows: seq<Row>)
    ensures |rows| == |history|
    ensures forall i :: 0 <= i < |rows| ==>
      && rows[i].text == Preview(history[i].prompt)
      && rows[i].date == FormatDate(Some(now - history[i].createdAt), localeDate(history[i].createdAt))
  {
    seq(|history|, i requires 0 <= i < |history| =>
      Row(Preview(history[i].prompt),
          FormatDate(Some(now - history[i].createdAt), localeDate(history[i].createdAt))))
  }

  /** `handleSelect(item.prompt)`: the prompt handed to `onSelect`, when the parent passed one. */
  function SelectedPrompt(history: seq<ChatRoute.Entry>, index: nat, hasOnSelect: bool): (forwarded: Option<string>)
    requires index < |history|
    ensures forwarded.Some? <==> hasOnSelect
    ensures forwarded.Some? ==> forwarded.value == history[index].prompt
  {
    if hasOnSelect then Some(history[index].prompt) else None
  }

  /** After a successful turn, the first item of the reloaded list is the prompt just sent,
      verbatim, and clicking it hands back exactly that prompt. */
  lemma RecallNewestAfterTurn(u: ChatRoute.UserData, prompt: string, now: nat)
    ensures var listed := Reverse(ChatRoute.AfterTurn(u, ChatRoute.Entry(prompt, now)).history.GetOr([]));
      && |listed| >= 1
      && SelectedPrompt(listed, 0, true) == Some(prompt)
  {
    ChatRoute.NewestFirstAfterTurn(u, ChatRoute.Entry(prompt, now));
  }

  /** The sidebar's state. */
  class Sidebar {
    var history: seq<ChatRoute.Entry>
    var loading: bool
    var error: string

    /** The state before the first fetch: an empty list that is loading. */
    constructor ()
      ensures history == [] && loading && error == ""
    {
      history := [];
      loading := true;
      error := "";
    }

    /** `fetchHistory`: without a stored token nothing changes; otherwise the list is the
        loaded history (empty when absent) with no error, or empty with the error text when
        the request failed, and loading is over either way. */
    method FetchHistory(hasToken: bool, outcome: FetchOutcome)
      modifies this
      ensures !hasToken ==> unchanged(this)
      ensures hasToken ==> !loading
      ensures hasToken && outcome.Fetched? ==> history == outcome.history.GetOr([]) && error == ""
      ensures hasToken && outcome.FetchFailed? ==> history == [] && error == LoadErrorText
    {
      if !hasToken {
        return;
      }
      loading := true;
      error := "";
      match outcome {
        case Fetched(h) =>
          history := h.GetOr([]);
        case FetchFailed =>
          error := LoadErrorText;
          history := [];
      }
      loading := false;
    }

    /** The rows on screen: none while loading, otherwise one per loaded entry. */
    function VisibleRows(now: int, localeDate: nat -> string): (rows: seq<Row>)
      reads this
      ensures loading ==> rows == []
      ensures !loading ==> rows == Rows(history, now, localeDate)
    {
      if !loading && |history| > 0 then Rows(history, now, localeDate) else []
    }
  }
}

/** The "Last Activity" dashboard card (components/MetricsCards.tsx): the
    newest action and the time part of its timestamp. The other two cards,
    total units and distinct names, are folds over the product list found in
    module Totals. */
module Metrics {
  import opened Wrappers
  import opened Text
  import opened Types

  /** `logs[0].action`, or "N/A" when there is no log: the newest action. */
  function LastAction(logs: seq<Log>): (r: string)
    ensures logs == [] ==> r == "N/A"
    ensures logs != [] ==> r == logs[0].action
  {
    if |logs| > 0 then logs[0].action else "N/A"
  }

  /** Position of the first comma. */
  function IndexOfComma(s: string): (i: nat)
    requires ',' in s
    ensures i < |s| && s[i] == ','
    ensures ',' !in s[..i]
  {
    if s[0] == ',' then 0 else 1 + IndexOfComma(s[1..])
  }

  /** `s.split(',')`. */
  function SplitComma(s: string): (fields: seq<string>)
    ensures |fields| >= 1
    ensures forall k :: 0 <= k < |fields| ==> ',' !in fields[k]
    decreases |s|
  {
    if ',' !in s then [s]
    else
      var i := IndexOfComma(s);
      [s[..i]] + SplitComma(s[i + 1..])
  }

  /** `fields.join(',')`. */
  function JoinComma(fields: seq<string>): string {
    if fields == [] then ""
    else if |fields| == 1 then fields[0]
    else fields[0] + "," + JoinComma(fields[1..])
  }

  /** Splitting loses nothing: joining the fields gives the text back. */
  lemma {:induction false} SplitJoinRoundTrip(s: string)
    ensures JoinComma(SplitComma(s)) == s
    decreases |s|
  {
    if ',' in s {
      var i := IndexOfComma(s);
      SplitJoinRoundTrip(s[i + 1..]);
      assert s == s[..i] + "," + s[i + 1..];
    }
  }

  /** `s.split(',')[1]`: the second field, absent when `s` has no comma. */
  function SecondField(s: string): (f: Option<string>)
    ensures f.None? <==> ',' !in s
    ensures f.Some? ==> ',' !in f.value
  {
    var fields := SplitComma(s);
    if |fields| > 1 then Some(fields[1]) else None
  }

  /** The second field is absent exactly when there is no comma; otherwise it
      is the text after the first comma, up to the next comma or the end. */
  lemma SecondFieldSpec(s: string)
    ensures SecondField(s).None? <==> ',' !in s
    ensures SecondField(s).Some? ==>
      var i, f := IndexOfComma(s), SecondField(s).value;
      && i + 1 + |f| <= |s|
      && f == s[i + 1..i + 1 + |f|]
      && ',' !in f
      && (i + 1 + |f| == |s| || s[i + 1 + |f|] == ',')
  {
    if ',' in s {
      var i := IndexOfComma(s);
      var rest := s[i + 1..];
      var f := SplitComma(rest)[0];
      if ',' in rest {
        var j := IndexOfComma(rest);
        assert f == rest[..j];
        assert s[i + 1 + j] == rest[j];
      } else {
        assert f == rest;
      }
    }
  }

  /** `logs[0].timestamp.split(',')[1]`, or "" with no logs; `None` stands for
      JavaScript's `undefined` when the timestamp has no comma. */
  function LastActionTime(logs: seq<Log>): (t: Option<string>)
    ensures logs == [] ==> t == Some("")
    ensures logs != [] ==> (t.None? <==> ',' !in logs[0].timestamp)
  {
    if |logs| > 0 then SecondFieldSpec(logs[0].timestamp); SecondField(logs[0].timestamp) else Some("")
  }

  /** The "Last Activity" card's subtext. */
  function ActivitySubtext(time: Option<string>): (r: string)
    ensures r == "No recent activity" <==> time.None? || time.value == ""
    ensures time.Some? && time.value != "" ==> r == "at " + time.value
  {
    match time
    case Some(t) =>
      if t != "" then assert ("at " + t)[0] == 'a'; "at " + t else "No recent activity"
    case None => "No recent activity"
  }

  /** An empty log, or a newest timestamp without a comma, shows no activity
      time; a "date, time" timestamp shows its time part. */
  lemma ActivitySubtextCases(logs: seq<Log>, date: string, time: string)
    ensures logs == [] ==> ActivitySubtext(LastActionTime(logs)) == "No recent activity"
    ensures logs != [] && ',' !in logs[0].timestamp ==>
      ActivitySubtext(LastActionTime(logs)) == "No recent activity"
    ensures (logs != [] && logs[0].timestamp == date + "," + time
             && ',' !in date && ',' !in time && time != "") ==>
      ActivitySubtext(LastActionTime(logs)) == "at " + time
  {
    if logs != [] {
      var s := logs[0].timestamp;
      SecondFieldSpec(s);
      if s == date + "," + time && ',' !in date && ',' !in time && time != "" {
        assert s[|date|] == ',';
        assert s[..|date|] == date;
        assert IndexOfComma(s) == |date|;
        assert s[|date| + 1..] == time;
      }
    }
  }
}

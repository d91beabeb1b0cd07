/** The mute-duration menu: the durations offered, in milliseconds, and the
    label shown for each. A duration of 0 asks the server to mute forever. */
module Mute {
  import opened Common

  const MillisPerMinute: nat := 1000 * 60

  /** The durations in the order the menu lists them; the last one, 0, is "forever". */
  const MuteDurations: seq<nat> := [
    MillisPerMinute * 5,
    MillisPerMinute * 30,
    MillisPerMinute * 60,
    MillisPerMinute * 60 * 6,
    MillisPerMinute * 60 * 24,
    MillisPerMinute * 60 * 24 * 3,
    MillisPerMinute * 60 * 24 * 7,
    0
  ]

  /** The label table, keyed by the literal millisecond values. */
  const MuteDurationLabels: map<nat, string> := map[
    0 := "Forever",
    300_000 := "5 minutes",
    1_800_000 := "30 minutes",
    3_600_000 := "1 hour",
    21_600_000 := "6 hours",
    86_400_000 := "1 day",
    259_200_000 := "3 days",
    604_800_000 := "1 week"
  ]

  /** `MUTE_DURATIONS_LABELS[duration]`: the label, or `undefined` for a
      duration the table does not know. Every offered duration has one. */
  function MuteLabel(duration: nat): (text: Option<string>)
    ensures text.Some? <==> duration in MuteDurations
  {
    if duration in MuteDurationLabels then Some(MuteDurationLabels[duration]) else None
  }

  /** The table has eight distinct entries, 0 encodes "forever", and the
      label map is keyed by exactly the offered durations. */
  lemma MuteTableWellFormed()
    ensures |MuteDurations| == 8
    ensures forall i, j :: 0 <= i < j < |MuteDurations| ==> MuteDurations[i] != MuteDurations[j]
    ensures MuteDurations[|MuteDurations| - 1] == 0 && MuteLabel(0) == Some("Forever")
    ensures forall d :: d in MuteDurationLabels <==> d in MuteDurations
  {
  }

  /** The offered durations grow strictly up to one week, before "forever". */
  lemma MuteDurationsAscending()
    ensures forall i, j :: 0 <= i < j < |MuteDurations| - 1 ==> MuteDurations[i] < MuteDurations[j]
    ensures MuteDurations[|MuteDurations| - 2] == 7 * 24 * 60 * 60 * 1000
  {
  }
}

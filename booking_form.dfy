/**
 * The booking form of main/forms.py (`BookingForm.__init__`): the service choice is
 * restricted to active services, and the time choice lists a placeholder followed by
 * every half hour from 08:00 to 18:00 inclusive, each as a ("%H:%M", "%I:%M %p") pair.
 */
module BookingForm {
  import opened Wrappers
  import opened Clock
  import Catalog

  const OpeningTime: int := 8 * 60
  const ClosingTime: int := 18 * 60
  const ChoiceStep: int := 30
  const Placeholder: (string, string) := ("", "Select a time")

  /** The k-th offered start time (k = 0 is 08:00). */
  function OfferedTime(k: int): int {
    OpeningTime + ChoiceStep * k
  }

  /** The (value, label) pair of a time of day. */
  function TimeChoice(t: int): (string, string)
    requires IsTimeOfDay(t)
  {
    (FormatHHMM(t), Format12(t))
  }

  /** The time choices: the placeholder, then 08:00, 08:30, ..., 18:00. */
  method TimeChoices() returns (choices: seq<(string, string)>)
    ensures |choices| == 22
    ensures choices[0] == Placeholder
    ensures forall k :: 1 <= k < |choices| ==> choices[k] == TimeChoice(OfferedTime(k - 1))
    ensures OfferedTime(0) == OpeningTime && OfferedTime(20) == ClosingTime
  {
    choices := [Placeholder];
    var current := OpeningTime;
    while current <= ClosingTime
      invariant OpeningTime <= current <= ClosingTime + ChoiceStep
      invariant (current - OpeningTime) % ChoiceStep == 0
      invariant |choices| == 1 + (current - OpeningTime) / ChoiceStep
      invariant choices[0] == Placeholder
      invariant forall k :: 1 <= k < |choices| ==> choices[k] == TimeChoice(OfferedTime(k - 1))
      decreases ClosingTime - current
    {
      choices := choices + [(FormatHHMM(current), Format12(current))];
      current := current + ChoiceStep;
    }
  }

  /** The values read back as 08:00 + 30k: strictly increasing, exactly 30 minutes apart,
      from 08:00 to 18:00. */
  lemma OfferedValuesAreHalfHours(k: int)
    requires 0 <= k <= 20
    ensures ParseHHMM(TimeChoice(OfferedTime(k)).0) == Some(OfferedTime(k))
    ensures k < 20 ==> OfferedTime(k + 1) == OfferedTime(k) + ChoiceStep
    ensures OpeningTime <= OfferedTime(k) <= ClosingTime
  {
    HHMMRoundTrip(OfferedTime(k));
  }

  /** Value and label of a choice name the same time of day; the label is 12-hour. */
  lemma ChoiceLabelAgreesWithValue(t: int)
    requires IsTimeOfDay(t)
    ensures Parse12(TimeChoice(t).1) == ParseHHMM(TimeChoice(t).0) == Some(t)
  {
    HHMMRoundTrip(t);
    Format12RoundTrip(t);
  }

  /** The first option after the placeholder. */
  lemma FirstChoice()
    ensures TimeChoice(OfferedTime(0)) == ("08:00", "08:00 AM")
  {
    assert Pad2(8) == "08" && Pad2(0) == "00" && Hour12(8) == 8;
    assert FormatHHMM(480) == "08" + ":" + "00";
    assert Format12(480) == "08" + ":" + "00" + " " + "AM";
    assert "08" + ":" + "00" == "08:00";
    assert "08" + ":" + "00" + " " + "AM" == "08:00 AM";
  }

  /** The twelfth option, the first one in the afternoon half past an hour. */
  lemma AfternoonChoice()
    ensures TimeChoice(OfferedTime(11)) == ("13:30", "01:30 PM")
  {
    assert Pad2(13) == "13" && Pad2(30) == "30" && Pad2(1) == "01" && Hour12(13) == 1;
    assert FormatHHMM(810) == "13" + ":" + "30";
    assert Format12(810) == "01" + ":" + "30" + " " + "PM";
    assert "13" + ":" + "30" == "13:30";
    assert "01" + ":" + "30" + " " + "PM" == "01:30 PM";
  }

  /** The last option. */
  lemma LastChoice()
    ensures TimeChoice(OfferedTime(20)) == ("18:00", "06:00 PM")
  {
    assert Pad2(18) == "18" && Pad2(0) == "00" && Pad2(6) == "06" && Hour12(18) == 6;
    assert FormatHHMM(1080) == "18" + ":" + "00";
    assert Format12(1080) == "06" + ":" + "00" + " " + "PM";
    assert "18" + ":" + "00" == "18:00";
    assert "06" + ":" + "00" + " " + "PM" == "06:00 PM";
  }

  /** `Service.objects.filter(is_active=True)`, in catalogue order. */
  function ActiveServices(services: seq<Catalog.Service>): (r: seq<Catalog.Service>)
    ensures forall s :: s in r <==> s in services && s.isActive
    ensures |r| <= |services|
    decreases |services|
  {
    if services == [] then []
    else
      var rest := ActiveServices(services[1..]);
      assert forall s :: s in services <==> s == services[0] || s in services[1..];
      if services[0].isActive then [services[0]] + rest else rest
  }
}

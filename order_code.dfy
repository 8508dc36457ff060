/**
 * Sequential order codes: one counter per (key, year) in the sequence table,
 * formatted `KEY-YEAR-000001`. The year comes from the clock and is a parameter here.
 */
module OrderCode {
  import opened Strings

  /** A counter row is identified by its key ("ORC", "PED") and year. */
  datatype SeriesId = SeriesId(key: string, year: nat)

  /** `String(n).padStart(6, '0')`: left-pads with zeros to six characters, never truncates. */
  function Pad6(n: nat): (r: string)
    ensures |r| == if |NatToString(n)| >= 6 then |NatToString(n)| else 6
    ensures forall i :: 0 <= i < |r| ==> IsDigit(r[i])
    ensures r[|r| - |NatToString(n)|..] == NatToString(n)
    ensures forall i :: 0 <= i < |r| - |NatToString(n)| ==> r[i] == '0'
  {
    var s := NatToString(n);
    if |s| >= 6 then s else Zeros(6 - |s|) + s
  }

  /** Pad6 keeps the number: reading the padded digits back gives `n`. */
  lemma Pad6Value(n: nat)
    ensures DigitsValue(Pad6(n)) == n
  {
    var s := NatToString(n);
    NatToStringValue(n);
    if |s| < 6 {
      LeadingZerosValue(6 - |s|, s);
    }
  }

  lemma Pad6Injective(a: nat, b: nat)
    requires Pad6(a) == Pad6(b)
    ensures a == b
  {
    Pad6Value(a);
    Pad6Value(b);
  }

  /** The code for the `value`-th allocation of a series. */
  function FormatCode(series: SeriesId, value: nat): (code: string)
    ensures |code| == |series.key| + 1 + |NatToString(series.year)| + 1 + |Pad6(value)|
    ensures code[..|series.key| + 1] == series.key + "-"
  {
    series.key + "-" + NatToString(series.year) + "-" + Pad6(value)
  }

  /** Within one series, different counter values give different codes: codes never repeat. */
  lemma CodesNeverRepeat(series: SeriesId, a: nat, b: nat)
    requires a != b
    ensures FormatCode(series, a) != FormatCode(series, b)
  {
    if FormatCode(series, a) == FormatCode(series, b) {
      var prefix := series.key + "-" + NatToString(series.year) + "-";
      assert FormatCode(series, a) == prefix + Pad6(a);
      assert FormatCode(series, b) == prefix + Pad6(b);
      assert Pad6(a) == FormatCode(series, a)[|prefix|..];
      assert Pad6(b) == FormatCode(series, b)[|prefix|..];
      Pad6Injective(a, b);
    }
  }

  /** The counter value the upsert leaves: 1 for a new series, one more otherwise. */
  function NextValue(counters: map<SeriesId, nat>, series: SeriesId): (v: nat)
    ensures series !in counters ==> v == 1
    ensures series in counters ==> v == counters[series] + 1
    ensures v >= 1
  {
    if series in counters then counters[series] + 1 else 1
  }

  /** The `sequence` table, updated in place by `nextOrderCode`. */
  class SequenceTable {
    var counters: map<SeriesId, nat>

    constructor ()
      ensures counters == map[]
    {
      counters := map[];
    }

    /**
     * `nextOrderCode`: creates the series at 1 or increments it, leaves every
     * other series alone and returns the formatted code of the new value.
     */
    method NextOrderCode(key: string, year: nat) returns (code: string)
      modifies this
      ensures var s := SeriesId(key, year);
        && counters == old(counters)[s := NextValue(old(counters), s)]
        && code == FormatCode(s, counters[s])
    {
      var s := SeriesId(key, year);
      var value := if s in counters then counters[s] + 1 else 1;
      counters := counters[s := value];
      code := s.key + "-" + NatToString(year) + "-" + Pad6(value);
    }
  }

  /** Two allocations in a row from the same series give increasing values and distinct codes. */
  lemma SuccessiveCodesDiffer(counters: map<SeriesId, nat>, series: SeriesId)
    ensures var first := NextValue(counters, series);
            var second := NextValue(counters[series := first], series);
            && second == first + 1
            && FormatCode(series, first) != FormatCode(series, second)
  {
    var first := NextValue(counters, series);
    CodesNeverRepeat(series, first, first + 1);
  }

  /** Allocating from one series never changes another series' counter. */
  lemma OtherSeriesUntouched(counters: map<SeriesId, nat>, series: SeriesId, other: SeriesId)
    requires other != series
    ensures var after := counters[series := NextValue(counters, series)];
            (other in after <==> other in counters) && (other in counters ==> after[other] == counters[other])
  {
  }

  /** The first code of a year: counter 1, padded to six digits. */
  lemma FirstCodeOfSeries()
    ensures FormatCode(SeriesId("PED", 2025), NextValue(map[], SeriesId("PED", 2025))) == "PED-2025-000001"
  {
  }
}

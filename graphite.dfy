/**
 * The Graphite plaintext line the poller writes for every metric
 * (`String.formatMetric`), and a reading of such a line back into its
 * three fields, which inverts the formatting for every name and value
 * that holds no space and no newline.
 */
module Graphite {
  import opened Wrappers
  import opened Numerics

  /** One metric handed to the collector: its dotted path and its integer value. */
  datatype Metric = Metric(name: string, value: int)

  /** `name value timestamp\n`; the timestamp, in epoch seconds, is supplied by the caller. */
  function FormatMetric(name: string, metricValue: string, timestamp: int): string {
    name + " " + metricValue + " " + DecimalString(timestamp) + "\n"
  }

  /** The line sent for `m`: its value rendered with `toString()`. */
  function MetricLine(m: Metric, timestamp: int): string {
    FormatMetric(m.name, DecimalString(m.value), timestamp)
  }

  /** What the collector reads from one line. */
  datatype Datapoint = Datapoint(path: string, value: string, timestamp: int)

  /** The space-separated fields of `s`, empty fields included. */
  function Fields(s: string): (fields: seq<string>)
    ensures |fields| >= 1
  {
    if s == [] then [""]
    else
      var rest := Fields(s[1..]);
      if s[0] == ' ' then [""] + rest else [[s[0]] + rest[0]] + rest[1..]
  }

  lemma {:induction false} FieldsOfWord(a: string)
    requires ' ' !in a
    ensures Fields(a) == [a]
  {
    if a != [] {
      assert ' ' !in a[1..] by {
        forall i | 0 <= i < |a[1..]| ensures a[1..][i] != ' ' {
          assert a[1..][i] == a[i + 1];
        }
      }
      FieldsOfWord(a[1..]);
      assert [a[0]] + a[1..] == a;
    }
  }

  lemma {:induction false} FieldsAfterWord(a: string, b: string)
    requires ' ' !in a
    ensures Fields(a + " " + b) == [a] + Fields(b)
  {
    if a == [] {
      assert (a + " " + b)[1..] == b;
    } else {
      assert ' ' !in a[1..] by {
        forall i | 0 <= i < |a[1..]| ensures a[1..][i] != ' ' {
          assert a[1..][i] == a[i + 1];
        }
      }
      assert (a + " " + b)[1..] == a[1..] + " " + b;
      FieldsAfterWord(a[1..], b);
      assert [a[0]] + a[1..] == a;
    }
  }

  /** The collector's parse: one line of three space-separated fields ended by a newline, the last a number. */
  function ParseLine(line: string): Option<Datapoint> {
    if |line| >= 1 && line[|line| - 1] == '\n' && '\n' !in line[..|line| - 1] then
      var fields := Fields(line[..|line| - 1]);
      if |fields| == 3 then
        match ParseDecimal(fields[2])
        case Some(t) => Some(Datapoint(fields[0], fields[1], t))
        case None => None
      else None
    else None
  }

  /** A formatted line is read back as the name, value and timestamp it was built from. */
  lemma FormatMetricRoundTrip(name: string, metricValue: string, timestamp: int)
    requires ' ' !in name && ' ' !in metricValue
    requires '\n' !in name && '\n' !in metricValue
    ensures ParseLine(FormatMetric(name, metricValue, timestamp))
         == Some(Datapoint(name, metricValue, timestamp))
  {
    var ts := DecimalString(timestamp);
    var line := FormatMetric(name, metricValue, timestamp);
    assert line[..|line| - 1] == name + " " + (metricValue + " " + ts);
    FieldsAfterWord(name, metricValue + " " + ts);
    FieldsAfterWord(metricValue, ts);
    FieldsOfWord(ts);
    DecimalRoundTrip(timestamp);
  }

  /** The collector recovers the metric's path, numeric value and timestamp from its line. */
  lemma MetricLineRoundTrip(m: Metric, timestamp: int)
    requires ' ' !in m.name && '\n' !in m.name
    ensures ParseLine(MetricLine(m, timestamp)) == Some(Datapoint(m.name, DecimalString(m.value), timestamp))
    ensures ParseDecimal(DecimalString(m.value)) == Some(m.value)
  {
    FormatMetricRoundTrip(m.name, DecimalString(m.value), timestamp);
    DecimalRoundTrip(m.value);
  }
}

/** The ThingSpeak client's pure part: turning feed records into samples,
    and the date text a historical request sends.  The HTTP round trip
    around it is not modelled; its outcomes are inputs elsewhere. */
module ThingSpeak {
  import opened Outcomes
  import opened Samples
  import Config
  import Text

  /** A decoded feed record: its keys and their string values (a `null`
      value is an absent key). */
  type Record = map<string, string>

  /** `parseFloat`, whose internals are floating point and are not modelled:
      `None` is NaN. */
  type ParseFloat = string -> Option<real>

  const CreatedAtKey: string := "created_at"

  /** `field${FIELD_MAPPINGS[m]}`: the word `field` and the metric's
      configured field number, a single digit. */
  function FieldKey(m: Metric): (k: string)
    ensures |k| == 6 && k[..5] == "field"
    ensures Text.IsDigit(k[5]) && Text.DigitValue(k[5]) == Config.FieldIndex(m)
  {
    "field" + Text.NatToString(Config.FieldIndex(m))
  }

  /** Different metrics are read from different keys, each `field` plus the
      configured digit. */
  lemma {:induction false} FieldKeysDistinct(m1: Metric, m2: Metric)
    ensures |FieldKey(m1)| == 6 && FieldKey(m1)[..5] == "field"
    ensures Text.DigitValue(FieldKey(m1)[5]) == Config.FieldIndex(m1)
    ensures FieldKey(m1) == FieldKey(m2) <==> m1 == m2
  {
    var k1, k2 := FieldKey(m1), FieldKey(m2);
    assert k1[5] == Text.DigitChar(Config.FieldIndex(m1));
    assert k2[5] == Text.DigitChar(Config.FieldIndex(m2));
    if k1 == k2 {
      assert Config.FieldIndex(m1) == Config.FieldIndex(m2);
    }
  }

  /** `x || null` applied to a `parseFloat` result: NaN and 0 are both falsy,
      so both become `null`; any other number is kept. */
  function OrNull(v: Option<real>): (r: Option<real>)
    ensures r.None? <==> (v.None? || v.value == 0.0)
    ensures r.Some? ==> r == v
  {
    if v.Some? && v.value != 0.0 then v else None
  }

  /** `parseFloat(record[FieldKey(m)]) || null`; `parseFloat(undefined)` is NaN. */
  function ReadMetric(rec: Record, m: Metric, parse: ParseFloat): (r: Option<real>)
    ensures r.Some? <==> FieldKey(m) in rec && parse(rec[FieldKey(m)]).Some? && parse(rec[FieldKey(m)]).value != 0.0
    ensures r.Some? ==> r == parse(rec[FieldKey(m)])
  {
    OrNull(if FieldKey(m) in rec then parse(rec[FieldKey(m)]) else None)
  }

  /** A metric depends on the record's value at its own key and on no other key. */
  lemma ReadMetricReadsOnlyItsField(r1: Record, r2: Record, m: Metric, parse: ParseFloat)
    requires FieldKey(m) in r1 <==> FieldKey(m) in r2
    requires FieldKey(m) in r1 ==> r1[FieldKey(m)] == r2[FieldKey(m)]
    ensures ReadMetric(r1, m, parse) == ReadMetric(r2, m, parse)
  {
  }

  /** `record.created_at`, `undefined` when absent. */
  function CreatedAt(rec: Record): (t: Timestamp)
    ensures t.Some? <==> CreatedAtKey in rec
    ensures t.Some? ==> t.value == rec[CreatedAtKey]
  {
    if CreatedAtKey in rec then Some(rec[CreatedAtKey]) else None
  }

  /** The object literal built from one record; `fetchLatestData` returns it
      as it is, and `fetchHistoricalData` builds it for every feed. */
  function Normalize(rec: Record, parse: ParseFloat): (s: Sample)
    ensures s.timestamp == CreatedAt(rec)
    ensures forall m: Metric :: s.Get(m) == ReadMetric(rec, m, parse)
  {
    Sample(CreatedAt(rec),
      ReadMetric(rec, Temperature, parse),
      ReadMetric(rec, Humidity, parse),
      ReadMetric(rec, Pm25, parse),
      ReadMetric(rec, Pm10, parse),
      ReadMetric(rec, Co2, parse),
      ReadMetric(rec, No2, parse))
  }

  /** `feeds.map(...)`: one sample per feed, in the provider's order. */
  function NormalizeAll(feeds: seq<Record>, parse: ParseFloat): (r: seq<Sample>)
    ensures |r| == |feeds|
    ensures forall i :: 0 <= i < |feeds| ==> r[i] == Normalize(feeds[i], parse)
  {
    if feeds == [] then [] else [Normalize(feeds[0], parse)] + NormalizeAll(feeds[1..], parse)
  }

  /** `.filter(...)`: the samples with at least one metric, in their order. */
  function DropEmpty(samples: seq<Sample>): (r: seq<Sample>)
    ensures |r| <= |samples|
    ensures forall i :: 0 <= i < |r| ==> r[i].HasReading()
    ensures forall x :: x in r ==> x in samples
    ensures forall x :: x in samples && x.HasReading() ==> x in r
  {
    if samples == [] then []
    else if samples[0].HasReading() then [samples[0]] + DropEmpty(samples[1..])
    else DropEmpty(samples[1..])
  }

  /** Filtering a concatenation filters each part and keeps the parts in
      order: the filter never reorders samples. */
  lemma {:induction false} DropEmptyOfConcat(a: seq<Sample>, b: seq<Sample>)
    ensures DropEmpty(a + b) == DropEmpty(a) + DropEmpty(b)
  {
    if a == [] {
      assert a + b == b;
    } else {
      assert (a + b)[1..] == a[1..] + b;
      DropEmptyOfConcat(a[1..], b);
    }
  }

  /** A series in which every sample has a reading passes the filter unchanged. */
  lemma {:induction false} DropEmptyKeepsFullSeries(s: seq<Sample>)
    requires forall i :: 0 <= i < |s| ==> s[i].HasReading()
    ensures DropEmpty(s) == s
  {
    if s != [] {
      DropEmptyKeepsFullSeries(s[1..]);
    }
  }

  /** What `fetchHistoricalData` returns for a decoded response whose
      `feeds` property is `feeds` (`None` when it is missing). */
  function HistoricalSamples(feeds: Option<seq<Record>>, parse: ParseFloat): (r: seq<Sample>)
    ensures feeds.None? || feeds.value == [] ==> r == []
    ensures feeds.Some? ==> |r| <= |feeds.value|
    ensures forall i :: 0 <= i < |r| ==> r[i].HasReading()
    ensures feeds.Some? ==> forall x :: x in r ==> x in NormalizeAll(feeds.value, parse)
    ensures feeds.Some? ==>
              forall j :: 0 <= j < |feeds.value| && Normalize(feeds.value[j], parse).HasReading() ==>
                Normalize(feeds.value[j], parse) in r
  {
    if feeds.None? || |feeds.value| == 0 then []
    else DropEmpty(NormalizeAll(feeds.value, parse))
  }

  /** The batch splits over concatenated feeds: provider order is preserved. */
  lemma {:induction false} HistoricalOfConcat(f1: seq<Record>, f2: seq<Record>, parse: ParseFloat)
    ensures HistoricalSamples(Some(f1 + f2), parse)
         == HistoricalSamples(Some(f1), parse) + HistoricalSamples(Some(f2), parse)
  {
    if f1 == [] {
      assert f1 + f2 == f2;
    } else if f2 == [] {
      assert f1 + f2 == f1;
    } else {
      NormalizeAllOfConcat(f1, f2, parse);
      DropEmptyOfConcat(NormalizeAll(f1, parse), NormalizeAll(f2, parse));
    }
  }

  lemma {:induction false} NormalizeAllOfConcat(f1: seq<Record>, f2: seq<Record>, parse: ParseFloat)
    ensures NormalizeAll(f1 + f2, parse) == NormalizeAll(f1, parse) + NormalizeAll(f2, parse)
  {
    var n, n1, n2 := NormalizeAll(f1 + f2, parse), NormalizeAll(f1, parse), NormalizeAll(f2, parse);
    assert |n| == |n1 + n2|;
    forall i | 0 <= i < |n| ensures n[i] == (n1 + n2)[i] {
      if i < |f1| {
        assert (f1 + f2)[i] == f1[i];
        assert n[i] == n1[i] == (n1 + n2)[i];
      } else {
        assert (f1 + f2)[i] == f2[i - |f1|];
        assert n[i] == n2[i - |f1|] == (n1 + n2)[i];
      }
    }
  }

  /** One feed on its own: the batch keeps its sample only if some metric is
      non-null, while the latest-record path returns that same sample in
      every case.  Together with HistoricalOfConcat this pins the batch down. */
  lemma HistoricalOfOne(rec: Record, parse: ParseFloat)
    ensures HistoricalSamples(Some([rec]), parse)
         == if Normalize(rec, parse).HasReading() then [Normalize(rec, parse)] else []
  {
    assert NormalizeAll([rec], parse) == [Normalize(rec, parse)];
    assert [Normalize(rec, parse)][1..] == [];
  }

  // ---- The date text of a historical request ----

  /** The position of the first `c` in `s`, or `|s|` when there is none. */
  function IndexOf(s: string, c: char): (i: nat)
    ensures i <= |s|
    ensures i < |s| ==> s[i] == c
    ensures forall j :: 0 <= j < i ==> s[j] != c
  {
    if s == [] then 0 else if s[0] == c then 0 else 1 + IndexOf(s[1..], c)
  }

  /** `s.replace(from, to)` with one-character strings: only the first
      occurrence is replaced. */
  function ReplaceFirst(s: string, from: char, to: char): (r: string)
    ensures |r| == |s|
    ensures forall j :: 0 <= j < |s| && j != IndexOf(s, from) ==> r[j] == s[j]
    ensures IndexOf(s, from) < |s| ==> r[IndexOf(s, from)] == to
  {
    var i := IndexOf(s, from);
    if i < |s| then s[..i] + [to] + s[i + 1..] else s
  }

  /** `s.split(c)[0]`: everything before the first `c`. */
  function BeforeFirst(s: string, c: char): (r: string)
    ensures r <= s
    ensures c !in r
    ensures |r| < |s| ==> s[|r|] == c
  {
    s[..IndexOf(s, c)]
  }

  /** `date.toISOString().replace('T', ' ').split('.')[0]`, given the ISO text. */
  function RequestDate(iso: string): (r: string)
    ensures '.' !in r
    ensures |r| <= |iso|
  {
    BeforeFirst(ReplaceFirst(iso, 'T', ' '), '.')
  }

  /** The text `toISOString` produces for years 0 to 9999: `YYYY-MM-DDTHH:MM:SS.sssZ`. */
  predicate IsIsoInstant(s: string) {
    && |s| == 24
    && (forall i :: 0 <= i < 24 && i !in {4, 7, 10, 13, 16, 19, 23} ==> Text.IsDigit(s[i]))
    && s[4] == '-' && s[7] == '-' && s[10] == 'T'
    && s[13] == ':' && s[16] == ':' && s[19] == '.' && s[23] == 'Z'
  }

  /** For the text `toISOString` produces, the request date is its first 19
      characters with the `T` at index 10 replaced by a space. */
  lemma IsoRequestDate(iso: string)
    requires IsIsoInstant(iso)
    ensures RequestDate(iso) == iso[..10] + " " + iso[11..19]
    ensures |RequestDate(iso)| == 19
  {
    assert forall j :: 0 <= j < 10 ==> iso[j] != 'T' by {
      forall j | 0 <= j < 10 ensures iso[j] != 'T' {
        if j != 4 && j != 7 { assert Text.IsDigit(iso[j]); }
      }
    }
    assert IndexOf(iso, 'T') == 10;
    var replaced := ReplaceFirst(iso, 'T', ' ');
    assert forall j :: 0 <= j < 19 ==> replaced[j] != '.' by {
      forall j | 0 <= j < 19 ensures replaced[j] != '.' {
        if j != 10 && j != 4 && j != 7 && j != 13 && j != 16 { assert Text.IsDigit(iso[j]); }
      }
    }
    assert replaced[19] == '.';
    assert IndexOf(replaced, '.') == 19;
    assert RequestDate(iso) == replaced[..19];
  }
}

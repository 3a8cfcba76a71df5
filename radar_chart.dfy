/** The radar chart of the results page: one point per match, plotted on a
    radius axis from 0 to 100, under a series label from the chart's own
    translation table. The drawing itself is done by a charting library and is
    not modelled. */
module RadarChart {
  import opened I18n
  import opened Types

  /** One entry of `chartData`: `{subject, A, fullMark}`. */
  datatype ChartPoint = ChartPoint(subject: string, a: real, fullMark: int)

  /** The radius axis spans [RadiusMin, RadiusMax]; every point's full mark is its top. */
  const RadiusMin := 0
  const RadiusMax := 100

  /** `data.map(item => ({subject: item.angle, A: item.similarity, fullMark: 100}))`. */
  function ChartData(data: seq<CelebrityMatch>): (points: seq<ChartPoint>)
    ensures |points| == |data|
    ensures forall i :: 0 <= i < |data| ==>
              && points[i].subject == data[i].angle
              && points[i].a == data[i].similarity
              && points[i].fullMark == RadiusMax
  {
    if data == [] then []
    else [ChartPoint(data[0].angle, data[0].similarity, 100)] + ChartData(data[1..])
  }

  /** The single entry of the chart's translation table. */
  datatype Key = Similarity

  function KeyName(key: Key): string
  {
    match key
    case Similarity => "similarity"
  }

  function Text(lang: Lang, key: Key): string
  {
    match (lang, key)
    case (En, Similarity) => "Similarity"
    case (Zh, Similarity) => "相似度"
  }

  /** The chart's `t`: the table is complete, so it returns the locale's
      text and never falls back to the key. */
  function T(lang: Lang, key: Key): (r: string)
    ensures r == Text(lang, key) && r != ""
  {
    OrKey(Text(lang, key), KeyName(key))
  }

  /** The series is labelled "Similarity" in English and "相似度" in Chinese;
      the table is complete, so the lookup never falls back to the key. */
  lemma SeriesLabel(lang: Lang)
    ensures T(lang, Similarity) == (if lang == En then "Similarity" else "相似度")
    ensures T(lang, Similarity) != KeyName(Similarity)
  {
    assert Text(lang, Similarity)[0] != 's';
  }
}

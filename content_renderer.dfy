/**
 * What the player shows for the current segment under a code mode
 * (src/components/ContentRenderer.tsx).  Layout and styling are not
 * modelled; a view records the texts it displays.
 */
module ContentRenderer {
  import opened Types
  import opened MockData
  import PlayerScreen

  const SkipNotice: string := "已自动跳过代码块..."
  const LabelHeading: string := "语音标注模式"
  const SpokenPrefix: string := "正在朗读："
  const SummaryHeading: string := "AI 语义摘要生成中"
  const SummaryBadge: string := "GPT-4 Turbo"
  const MutedCodeCaption: string := "源代码(已静音)"
  /** The raw code preview in label mode is cut to this many lines. */
  const PreviewLines: nat := 3

  datatype View =
    | Prose(text: string)
    | SkippedCode(notice: string)
    | LabelledCode(heading: string, spoken: string, preview: string, maxLines: nat)
    | SummarisedCode(heading: string, badge: string, summary: string, caption: string, code: string)
    | Nothing

  /** The spoken line of label mode, quotation marks included as the markup writes them. */
  function SpokenLine(spoken: string): (line: string)
    ensures |line| == |spoken| + |SpokenPrefix| + 2
    ensures line[0] == '"' && line[|line| - 1] == '"'
    ensures line[1..|line| - 1] == SpokenPrefix + spoken
  {
    "\"" + SpokenPrefix + spoken + "\""
  }

  /** The view for a segment under a code mode. */
  function Render(seg: Segment, mode: CodeMode): (v: View)
    ensures seg.Text? ==> v == Prose(seg.content)
    ensures v.SkippedCode? <==> seg.Code? && mode == Skip
    ensures v.SkippedCode? ==> v.notice == SkipNotice
    ensures v.LabelledCode? <==> seg.Code? && mode == Label
    ensures v.LabelledCode? ==>
      v.spoken == SpokenLine(seg.spokenLabel) && v.preview == seg.raw && v.maxLines == PreviewLines
    ensures v.SummarisedCode? <==> seg.Code? && mode == Summary
    ensures v.SummarisedCode? ==> v.summary == seg.summary && v.code == seg.raw
    ensures v.Nothing? <==> seg.Code? && mode.OtherCodeMode?
  {
    match seg
    case Text(content) => Prose(content)
    case Code(_, raw, summary, spoken) =>
      if mode == Skip then SkippedCode(SkipNotice)
      else if mode == Label then LabelledCode(LabelHeading, SpokenLine(spoken), raw, PreviewLines)
      else if mode == Summary then
        SummarisedCode(SummaryHeading, SummaryBadge, summary, MutedCodeCaption, raw)
      else Nothing
  }

  /** The texts a view puts on screen. */
  function Shown(v: View): seq<string>
  {
    match v
    case Prose(t) => [t]
    case SkippedCode(n) => [n]
    case LabelledCode(h, s, p, _) => [h, s, p]
    case SummarisedCode(h, b, s, c, r) => [h, b, s, c, r]
    case Nothing => []
  }

  /**
   * Prose is shown the same way under every mode; a skipped code block
   * shows only the notice, none of its code, label or summary.
   */
  lemma RenderShows(seg: Segment, m1: CodeMode, m2: CodeMode)
    ensures seg.Text? ==> Render(seg, m1) == Render(seg, m2) && Shown(Render(seg, m1)) == [seg.content]
    ensures seg.Code? && m1 == Skip ==> Shown(Render(seg, m1)) == [SkipNotice]
    ensures seg.Code? && m1 == Summary ==> seg.summary in Shown(Render(seg, m1)) && seg.raw in Shown(Render(seg, m1))
  {
  }

  /**
   * The display agrees with the pace rule: a segment is shown as skipped
   * exactly when a tick completes it at once, and the modes the renderer
   * draws nothing for are the ones paced like prose.
   */
  lemma RenderMatchesPace(seg: Segment, mode: CodeMode, speed: real)
    ensures Render(seg, mode).SkippedCode? <==> PlayerScreen.Pace(seg, mode, speed).Complete?
    ensures Render(seg, mode).Nothing? ==> PlayerScreen.SpeedFactor(seg, mode) == 1.0
    ensures Render(seg, mode).LabelledCode? ==> PlayerScreen.SpeedFactor(seg, mode) == 2.0
    ensures Render(seg, mode).SummarisedCode? ==> PlayerScreen.SpeedFactor(seg, mode) == 0.8
  {
  }
}

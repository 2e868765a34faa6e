/** The tab bar: its table of tabs, the tab selected at start, and `UIColor(hex:)`,
    a second copy of the hex colour parser used for the bar's appearance. */
module TabBar {
  import opened FoundationText
  import Training

  datatype TabItem = TabItem(key: string, title: string, icon: string)

  /** The tab selected when the bar first appears. */
  const InitialSelectedTab: string := "training"

  /** The `tabs` table, in display order. */
  const Tabs: seq<TabItem> := [
    TabItem("training", "训练", "💪"),
    TabItem("exercises", "动作", "🎯"),
    TabItem("start", "开始训练", "▶️"),
    TabItem("history", "历史", "📅"),
    TabItem("profile", "我的", "👤")
  ]

  /** The selection tags the tab view attaches to its five pages, in order. */
  const PageTags: seq<string> := ["training", "exercises", "start", "history", "profile"]

  /** The keys of the tabs, in table order. */
  const TabKeys: seq<string> := seq(|Tabs|, i requires 0 <= i < |Tabs| => Tabs[i].key)

  /** No two tabs share a key, the initial selection is one of them, and the pages are
      tagged with exactly these keys in the same order. */
  lemma TabKeysWellFormed()
    ensures forall i, j :: 0 <= i < j < |Tabs| ==> Tabs[i].key != Tabs[j].key
    ensures InitialSelectedTab in TabKeys
    ensures TabKeys == PageTags
  {
    assert TabKeys[0] == InitialSelectedTab;
  }

  /** `UIColor(hex:)` up to the division by 255; the same trim, scan and length switch
      as `Color(hex:)`, written out again as the source does. */
  function UIColorChannels(hex: string): (c: Training.Channels)
    ensures Training.InByteRange(c)
    ensures |TrimNonAlphanumerics(hex)| !in {3, 6, 8} ==> c == Training.Channels(1, 1, 1, 0)
  {
    var hex := TrimNonAlphanumerics(hex);
    var v := ScanHexInt64(hex);
    Training.Pow16Values();
    if |hex| == 3 then
      Training.ShortChannelBounds(v);
      Training.Channels(255, (v / 0x100) * 17, (v / 0x10 % 0x10) * 17, (v % 0x10) * 17)
    else if |hex| == 6 then
      Training.RgbChannelBounds(v);
      Training.Channels(255, v / 0x1_0000, v / 0x100 % 0x100, v % 0x100)
    else if |hex| == 8 then
      Training.ArgbChannelBounds(v);
      Training.Channels(v / 0x100_0000, v / 0x1_0000 % 0x100, v / 0x100 % 0x100, v % 0x100)
    else
      Training.Channels(1, 1, 1, 0)
  }

  /** The two copies agree on every input string. */
  lemma UIColorMatchesColor(hex: string)
    ensures UIColorChannels(hex) == Training.ColorChannels(hex)
  {
  }
}

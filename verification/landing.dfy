/**
 * Helpers of the landing page in `public/js/script.js`: keyboard navigation
 * between the tabs, the display names of statistics, and filling the
 * statistic boxes.
 */
module LandingPage {
  import opened Wrappers

  // ---------------------------------------------------------------- keyboard navigation

  /** The keys `handleKeyboardNavigation` reacts to; every other key is `Other`. */
  datatype NavKey = ArrowUp | ArrowDown | Home | End | Other

  function Max(a: int, b: int): int { if a >= b then a else b }
  function Min(a: int, b: int): int { if a <= b then a else b }

  /**
   * The index the key selects among `n` tabs when the active tab is at
   * `current` (-1 when none is active); `None` for a key that is ignored.
   */
  function NavTarget(key: NavKey, current: int, n: nat): (r: Option<int>)
    ensures r.None? <==> key == Other
    ensures key == Home ==> r == Some(0)
    ensures key == End ==> r == Some(n - 1)
    ensures key == ArrowUp ==> r.Some? && r.value <= Max(current, 0) && (current > 0 ==> r.value == current - 1)
    ensures key == ArrowDown ==> r.Some? && r.value >= Min(current, n - 1) && (current < n - 1 ==> r.value == current + 1)
  {
    match key
    case ArrowUp => Some(Max(0, current - 1))
    case ArrowDown => Some(Min(n - 1, current + 1))
    case Home => Some(0)
    case End => Some(n - 1)
    case Other => None
  }

  /** The tab switched to: the target, only when there is one and it differs from the active tab. */
  function TabSwitch(key: NavKey, current: int, n: nat): (r: Option<int>)
    ensures r.Some? <==> NavTarget(key, current, n).Some? && NavTarget(key, current, n).value != current
    ensures r.Some? ==> r == NavTarget(key, current, n)
  {
    var target := NavTarget(key, current, n);
    if target.Some? && target.value != current then target else None
  }

  /** With at least one tab and a valid (or no) active tab, the selected index is a tab. */
  lemma NavTargetInRange(key: NavKey, current: int, n: nat)
    requires n >= 1 && -1 <= current < n
    ensures NavTarget(key, current, n).Some? ==> 0 <= NavTarget(key, current, n).value < n
  {
  }

  /** Home, End, or an arrow already at its end of the list, pressed a second time, switches nothing. */
  lemma NavTargetIdempotentAtEnds(key: NavKey, current: int, n: nat)
    requires n >= 1 && -1 <= current < n && key != Other
    requires key == Home || key == End || (key == ArrowUp && current <= 0) || (key == ArrowDown && current == n - 1)
    ensures TabSwitch(key, NavTarget(key, current, n).value, n).None?
  {
  }

  /** ArrowDown then ArrowUp comes back to a tab that is not the last one. */
  lemma DownThenUp(current: int, n: nat)
    requires 0 <= current < n - 1
    ensures NavTarget(ArrowUp, NavTarget(ArrowDown, current, n).value, n) == Some(current)
  {
  }

  // ---------------------------------------------------------------- statistics

  /** `formatStatName`'s table of display names. */
  const StatLabels: map<string, string> := map[
    "users" := "Users", "uptime" := "Uptime", "countries" := "Countries",
    "integrations" := "Integrations", "automations" := "Automations", "savings" := "Savings",
    "dataPoints" := "Data Points", "accuracy" := "Accuracy", "reports" := "Reports",
    "teams" := "Teams", "projects" := "Projects", "messages" := "Messages",
    "certifications" := "Certifications", "threats" := "Threats", "apis" := "APIs",
    "calls" := "API Calls", "partners" := "Partners", "response" := "Response Time",
    "satisfaction" := "Satisfaction", "articles" := "Articles"
  ]

  /**
   * `nameMap[key] || key`: the table's name for a known key; the key itself
   * otherwise. Every name in the table is non-empty, so `||` never falls
   * back for a known key.
   */
  function FormatStatName(key: string): (name: string)
    ensures key in StatLabels ==> name == StatLabels[key]
    ensures key !in StatLabels ==> name == key
    ensures key != "" ==> name != ""
  {
    var mapped := if key in StatLabels then StatLabels[key] else "";
    if mapped != "" then mapped else key
  }

  /** One entry of the statistics object, in key order. */
  datatype StatEntry = StatEntry(key: string, value: string)

  /** The value and the name a statistic box shows. */
  datatype StatBox = StatBox(value: string, name: string)

  /**
   * `updateStats`: missing (`None`) or empty statistics leave every box
   * alone; otherwise box i shows the i-th entry's value and formatted name,
   * skipping an empty key, and boxes past the last entry keep their text.
   */
  method UpdateStats(boxes: array<StatBox>, stats: Option<seq<StatEntry>>)
    modifies boxes
    ensures stats.None? || stats.value == [] ==> boxes[..] == old(boxes[..])
    ensures stats.Some? && stats.value != [] ==>
      forall i :: 0 <= i < boxes.Length ==>
        boxes[i] == if i < |stats.value| && stats.value[i].key != ""
                    then StatBox(stats.value[i].value, FormatStatName(stats.value[i].key))
                    else old(boxes[i])
  {
    if stats.None? || |stats.value| == 0 {
      return;
    }
    var entries := stats.value;
    for index := 0 to boxes.Length
      invariant forall i :: 0 <= i < index ==>
        boxes[i] == if i < |entries| && entries[i].key != ""
                    then StatBox(entries[i].value, FormatStatName(entries[i].key))
                    else old(boxes[i])
      invariant forall i :: index <= i < boxes.Length ==> boxes[i] == old(boxes[i])
    {
      if index < |entries| && entries[index].key != "" {
        var key := entries[index].key;
        boxes[index] := StatBox(entries[index].value, FormatStatName(key));
      }
    }
  }
}

/** The dashboard's transition function (Model.Update in ui/model.go) over an
    abstract state: the active tab, the two news selections and their header
    line counts, the loading and error maps, the data slots, the brief, the
    refresh time, the status line and one viewport per tab. Rendering is left
    to the environment: the header line counts and the overview's bottom
    offset that rendering would produce arrive with each message, as does the
    clock. Commands are tags for the runtime to run. */
module Dashboard {
  import opened Wrappers
  import opened UiText
  import Feeds
  import Intel
  import Cache
  import Markets
  import Weather

  const TabOverview: int := 0
  const TabNews: int := 1
  const TabLocal: int := 2
  const TabCount: int := 3

  /** The part of a bubbles viewport the model keeps. Offsets are not clamped
      to the content, which the model does not have. */
  datatype Viewport = Viewport(width: int, height: int, yOffset: int)

  function SetYOffset(v: Viewport, n: int): Viewport {
    v.(yOffset := n)
  }

  function LineDown(v: Viewport, n: int): Viewport {
    SetYOffset(v, v.yOffset + n)
  }

  function LineUp(v: Viewport, n: int): Viewport {
    SetYOffset(v, v.yOffset - n)
  }

  function HalfViewDown(v: Viewport): Viewport {
    LineDown(v, Weather.GoQuot(v.height, 2))
  }

  function HalfViewUp(v: Viewport): Viewport {
    LineUp(v, Weather.GoQuot(v.height, 2))
  }

  function GotoTop(v: Viewport): Viewport {
    SetYOffset(v, 0)
  }

  /** GotoBottom moves to the last page of the content; `bottom` is that
      offset as rendering computes it. */
  function GotoBottom(v: Viewport, bottom: int): Viewport {
    SetYOffset(v, bottom)
  }

  // ---------------------------------------------------------------------------
  // scrollNewsIntoView
  // ---------------------------------------------------------------------------

  const LinesPerItem: int := 3

  /** The first line of article idx below a header of headerLines lines. */
  function ItemLine(headerLines: int, idx: int): int {
    MaxInt(0, headerLines + idx * LinesPerItem)
  }

  /** scrollNewsIntoView: the viewport after bringing article idx into view. */
  function ScrolledIntoView(v: Viewport, headerLines: int, idx: int): (r: Viewport)
    ensures r.width == v.width && r.height == v.height
    ensures idx == 0 ==> r.yOffset == 0
  {
    if idx == 0 then GotoTop(v)
    else if v.height <= 0 then v
    else
      var itemLine := ItemLine(headerLines, idx);
      if itemLine < v.yOffset then SetYOffset(v, itemLine)
      else
        var itemBottom := itemLine + LinesPerItem - 1;
        if itemBottom >= v.yOffset + v.height then SetYOffset(v, itemBottom - v.height + 1) else v
  }

  /** The rules of scrollNewsIntoView: the first article shows the top, a
      viewport without height stays put, a visible article stays put, and an
      article above or below the window is scrolled to its top or bottom. */
  lemma ScrollRules(v: Viewport, headerLines: int, idx: int)
    ensures ScrolledIntoView(v, headerLines, idx).height == v.height
    ensures idx == 0 ==> ScrolledIntoView(v, headerLines, idx).yOffset == 0
    ensures idx != 0 && v.height <= 0 ==> ScrolledIntoView(v, headerLines, idx) == v
    ensures idx != 0 && v.height > 0 ==>
      var top := ItemLine(headerLines, idx);
      var bottom := top + LinesPerItem - 1;
      && (v.yOffset <= top && bottom < v.yOffset + v.height ==> ScrolledIntoView(v, headerLines, idx) == v)
      && (top < v.yOffset ==> ScrolledIntoView(v, headerLines, idx).yOffset == top)
      && (v.yOffset <= top && bottom >= v.yOffset + v.height ==>
            ScrolledIntoView(v, headerLines, idx).yOffset == bottom - v.height + 1)
  {
  }

  /** Once scrolled, an article other than the first is entirely in a window
      of at least three lines, and the offset is never negative when it was
      not before. */
  lemma ScrolledIsVisible(v: Viewport, headerLines: int, idx: int)
    requires idx != 0 && v.height >= LinesPerItem
    ensures var w := ScrolledIntoView(v, headerLines, idx); var top := ItemLine(headerLines, idx);
      w.yOffset <= top && top + LinesPerItem - 1 < w.yOffset + w.height
    ensures v.yOffset >= 0 ==> ScrolledIntoView(v, headerLines, idx).yOffset >= 0
  {
  }

  /** scrollNewsIntoView on &m.viewports[tab], updated in place. */
  method ScrollNewsIntoView(vps: array<Viewport>, tab: int, headerLines: int, selectedIdx: int)
    requires 0 <= tab < vps.Length
    modifies vps
    ensures vps[..] == old(vps[..])[tab := ScrolledIntoView(old(vps[tab]), headerLines, selectedIdx)]
  {
    if selectedIdx == 0 {
      vps[tab] := GotoTop(vps[tab]);
      return;
    }
    var vpH := vps[tab].height;
    if vpH <= 0 {
      return;
    }
    var itemLine := headerLines + selectedIdx * LinesPerItem;
    if itemLine < 0 {
      itemLine := 0;
    }
    var current := vps[tab].yOffset;
    if itemLine < current {
      vps[tab] := SetYOffset(vps[tab], itemLine);
      return;
    }
    var itemBottom := itemLine + LinesPerItem - 1;
    if itemBottom >= current + vpH {
      vps[tab] := SetYOffset(vps[tab], itemBottom - vpH + 1);
    }
  }

  // ---------------------------------------------------------------------------
  // State, messages and commands
  // ---------------------------------------------------------------------------

  /** The data slots of Model. */
  datatype Data = Data(
    globalNews: seq<Feeds.NewsItem>,
    localNews: seq<Feeds.NewsItem>,
    cryptoPrices: seq<Markets.CryptoPrice>,
    stockIndices: seq<Markets.StockIndex>,
    commodities: seq<Markets.Commodity>,
    polyMarkets: seq<Markets.PredictionMarket>,
    weatherCond: Option<Weather.Conditions>,
    forecast: seq<Weather.DayForecast>,
    brief: Option<Intel.Brief>)

  datatype DashState = DashState(
    width: int,
    height: int,
    activeTab: int,
    data: Data,
    selectedNewsIdx: int,
    newsHeaderLines: int,
    selectedLocalNewsIdx: int,
    localNewsHeaderLines: int,
    statusMsg: string,
    statusExpiry: int,
    loading: map<string, bool>,
    errors: map<string, string>,
    lastRefresh: int,
    viewports: seq<Viewport>)

  /** The configuration fields Update reads. */
  datatype Settings = Settings(apiKey: string, briefCacheMins: int, refreshSec: int)

  /** What Update takes from outside the model: the clock, and what rendering
      the new content would yield (header line counts, the overview's bottom
      offset, and the "Jan 02 15:04" text of a cached brief's time). */
  datatype Env = Env(now: int, newsHeaderLines: int, localHeaderLines: int, overviewBottom: int, cacheStamp: string)

  datatype WeatherData = WeatherData(cond: Weather.Conditions, forecast: seq<Weather.DayForecast>)

  /** The messages Update handles; a fetch result carries its payload or the
      error text. */
  datatype Msg =
    | Resize(w: int, h: int)
    | KeyPress(key: string)
    | SpinnerTick
    | Tick
    | GlobalNews(news: Result<seq<Feeds.NewsItem>, string>)
    | LocalNews(local: Result<seq<Feeds.NewsItem>, string>)
    | Crypto(prices: Result<seq<Markets.CryptoPrice>, string>)
    | Stocks(indices: Result<seq<Markets.StockIndex>, string>)
    | Commodities(goods: Result<seq<Markets.Commodity>, string>)
    | Polymarket(markets: Result<seq<Markets.PredictionMarket>, string>)
    | WeatherReport(report: Result<WeatherData, string>)
    | BriefReady(brief: Result<Intel.Brief, string>, fromCache: bool)
    | OpenedURL(url: string)
    | ClearStatus

  /** The commands Update issues. `Redraw` is the WindowSizeMsg it sends
      itself after moving the news selection. */
  datatype Cmd =
    | Quit
    | RefreshAll
    | TickEvery(seconds: int)
    | FetchBrief(apiKey: string, items: seq<Feeds.NewsItem>, cacheMins: int, force: bool)
    | LoadCachedBrief(cacheMins: int)
    | Redraw(width: int, height: int)
    | OpenURL(url: string)
    | SpinnerFrame

  /** A transition: the new state, the commands, and the brief written to the
      disk cache, if any. */
  datatype Transition = Transition(state: DashState, cmds: seq<Cmd>, save: Option<Intel.Brief>)

  /** What every state of the dashboard keeps. */
  predicate ValidState(s: DashState) {
    && 0 <= s.activeTab < TabCount
    && |s.viewports| == TabCount
    && s.selectedNewsIdx >= 0
    && s.selectedLocalNewsIdx >= 0
  }

  const EmptyData: Data := Data([], [], [], [], [], [], None, [], None)

  /** NewModel: overview tab, nothing loaded, 80x30 viewports. */
  const InitialState: DashState := DashState(
    0, 0, TabOverview, EmptyData, 0, 0, 0, 0, "", 0, map[], map[], 0,
    [Viewport(80, 30, 0), Viewport(80, 30, 0), Viewport(80, 30, 0)])

  // ---------------------------------------------------------------------------
  // Keys
  // ---------------------------------------------------------------------------

  datatype Action =
    | Exit | NextTab | PrevTab | GoTab(tab: int) | Refresh | RequestBrief(force: bool)
    | Down | Up | Open | PageDown | PageUp | Bottom | Top | Ignore

  /** The cases of the key switch. */
  function ActionOf(key: string): (a: Action)
    ensures a.GoTab? ==> 0 <= a.tab < TabCount
  {
    if key == "q" || key == "ctrl+c" then Exit
    else if key == "tab" || key == "right" || key == "l" then NextTab
    else if key == "shift+tab" || key == "left" || key == "h" then PrevTab
    else if key == "1" then GoTab(TabOverview)
    else if key == "2" then GoTab(TabNews)
    else if key == "3" then GoTab(TabLocal)
    else if key == "r" then Refresh
    else if key == "b" then RequestBrief(false)
    else if key == "B" then RequestBrief(true)
    else if key == "j" || key == "down" then Down
    else if key == "k" || key == "up" then Up
    else if key == "enter" then Open
    else if key == "d" then PageDown
    else if key == "u" then PageUp
    else if key == "G" then Bottom
    else if key == "g" then Top
    else Ignore
  }

  /** Which keys quit, switch tabs, refresh and ask for a brief, in both
      directions. */
  lemma ControlKeys(key: string)
    ensures ActionOf(key) == Exit <==> key == "q" || key == "ctrl+c"
    ensures ActionOf(key) == NextTab <==> key == "tab" || key == "right" || key == "l"
    ensures ActionOf(key) == PrevTab <==> key == "shift+tab" || key == "left" || key == "h"
    ensures ActionOf(key).GoTab? <==> key == "1" || key == "2" || key == "3"
    ensures ActionOf(key) == Refresh <==> key == "r"
    ensures ActionOf(key) == RequestBrief(false) <==> key == "b"
    ensures ActionOf(key) == RequestBrief(true) <==> key == "B"
  {
  }

  /** Which keys move the selection or scroll and open an article, in both
      directions. */
  lemma NavigationKeys(key: string)
    ensures ActionOf(key) == Down <==> key == "j" || key == "down"
    ensures ActionOf(key) == Up <==> key == "k" || key == "up"
    ensures ActionOf(key) == Open <==> key == "enter"
  {
  }

  /** Which keys page and jump, in both directions. */
  lemma PagingKeys(key: string)
    ensures ActionOf(key) == PageDown <==> key == "d"
    ensures ActionOf(key) == PageUp <==> key == "u"
    ensures ActionOf(key) == Bottom <==> key == "G"
    ensures ActionOf(key) == Top <==> key == "g"
  {
  }

  /** Article idx of the News tab selected: the header is re-rendered and the
      article scrolled into view. */
  function SelectNews(s: DashState, idx: int, env: Env): DashState
    requires |s.viewports| == TabCount
  {
    s.(selectedNewsIdx := idx, newsHeaderLines := env.newsHeaderLines,
       viewports := s.viewports[TabNews := ScrolledIntoView(s.viewports[TabNews], env.newsHeaderLines, idx)])
  }

  /** Article idx of the Local tab selected. */
  function SelectLocal(s: DashState, idx: int, env: Env): DashState
    requires |s.viewports| == TabCount
  {
    s.(selectedLocalNewsIdx := idx, localNewsHeaderLines := env.localHeaderLines,
       viewports := s.viewports[TabLocal := ScrolledIntoView(s.viewports[TabLocal], env.localHeaderLines, idx)])
  }

  /** The active tab's viewport replaced, for the keys that only scroll. */
  function ScrollActive(s: DashState, v: Viewport): Transition
    requires ValidState(s)
  {
    Transition(s.(viewports := s.viewports[s.activeTab := v]), [], None)
  }

  /** The WindowSizeMsg a selection move sends to force a redraw. */
  function RedrawCmd(s: DashState): seq<Cmd> {
    [Redraw(s.width, s.height)]
  }

  /** "j"/"down". */
  function DownNext(s: DashState, env: Env): Transition
    requires ValidState(s)
  {
    var n := |s.data.globalNews|;
    if s.activeTab == TabNews && n > 0 then Transition(SelectNews(s, MinInt(s.selectedNewsIdx + 1, n - 1), env), RedrawCmd(s), None)
    else ScrollActive(s, LineDown(s.viewports[s.activeTab], 1))
  }

  /** "k"/"up". */
  function UpNext(s: DashState, env: Env): Transition
    requires ValidState(s)
  {
    var n := |s.data.globalNews|;
    if s.activeTab == TabNews && n > 0 then Transition(SelectNews(s, MaxInt(s.selectedNewsIdx - 1, 0), env), RedrawCmd(s), None)
    else ScrollActive(s, LineUp(s.viewports[s.activeTab], 1))
  }

  /** "d": ten articles down on the news tabs, half a page elsewhere. */
  function PageDownNext(s: DashState, env: Env): Transition
    requires ValidState(s)
  {
    var n := |s.data.globalNews|;
    var nl := |s.data.localNews|;
    if s.activeTab == TabNews then Transition(SelectNews(s, MinInt(s.selectedNewsIdx + 10, MaxInt(n - 1, 0)), env), RedrawCmd(s), None)
    else if s.activeTab == TabLocal then Transition(SelectLocal(s, MinInt(s.selectedLocalNewsIdx + 10, MaxInt(nl - 1, 0)), env), [], None)
    else ScrollActive(s, HalfViewDown(s.viewports[s.activeTab]))
  }

  /** "u": ten articles up on the news tabs, half a page elsewhere. */
  function PageUpNext(s: DashState, env: Env): Transition
    requires ValidState(s)
  {
    if s.activeTab == TabNews then Transition(SelectNews(s, MaxInt(s.selectedNewsIdx - 10, 0), env), RedrawCmd(s), None)
    else if s.activeTab == TabLocal then Transition(SelectLocal(s, MaxInt(s.selectedLocalNewsIdx - 10, 0), env), [], None)
    else ScrollActive(s, HalfViewUp(s.viewports[s.activeTab]))
  }

  /** "G": the last article on the news tabs, the bottom elsewhere. */
  function BottomNext(s: DashState, env: Env): Transition
    requires ValidState(s)
  {
    var n := |s.data.globalNews|;
    var nl := |s.data.localNews|;
    if s.activeTab == TabNews then Transition(SelectNews(s, MaxInt(n - 1, 0), env), RedrawCmd(s), None)
    else if s.activeTab == TabLocal then Transition(SelectLocal(s, MaxInt(nl - 1, 0), env), [], None)
    else ScrollActive(s, GotoBottom(s.viewports[s.activeTab], env.overviewBottom))
  }

  /** "g": the first article on the News tab, the top elsewhere; the Local
      selection is left where it is. */
  function TopNext(s: DashState, env: Env): Transition
    requires ValidState(s)
  {
    if s.activeTab == TabNews then
      Transition(s.(selectedNewsIdx := 0, newsHeaderLines := env.newsHeaderLines,
                    viewports := s.viewports[TabNews := GotoTop(s.viewports[TabNews])]), RedrawCmd(s), None)
    else ScrollActive(s, GotoTop(s.viewports[s.activeTab]))
  }

  /** "enter": open the selected article's link, or say there is none. */
  function OpenSelected(s: DashState, env: Env): Transition
    requires ValidState(s)
  {
    var onNews := s.activeTab == TabNews && s.selectedNewsIdx < |s.data.globalNews|;
    var onLocal := s.activeTab == TabLocal && s.selectedLocalNewsIdx < |s.data.localNews|;
    if onNews || onLocal then
      var item := if onNews then s.data.globalNews[s.selectedNewsIdx] else s.data.localNews[s.selectedLocalNewsIdx];
      if item.url != "" then
        Transition(s.(statusMsg := "Opening: " + Truncate(item.title, 60), statusExpiry := env.now + 3), [OpenURL(item.url)], None)
      else
        Transition(s.(statusMsg := "No URL available for this article", statusExpiry := env.now + 3), [], None)
    else Transition(s, [], None)
  }

  /** "b" and "B": ask for a brief when there is an API key; "B" bypasses the
      cache and says so. */
  function BriefRequest(s: DashState, cfg: Settings, force: bool, env: Env): Transition {
    if cfg.apiKey == "" then Transition(s, [], None)
    else
      var s1 := s.(loading := s.loading["brief" := true]);
      var s2 := if force then s1.(statusMsg := "Forcing fresh brief (ignoring cache)...", statusExpiry := env.now + 3) else s1;
      Transition(s2, [FetchBrief(cfg.apiKey, s.data.globalNews, cfg.briefCacheMins, force)], None)
  }

  /** The tab-switching keys. */
  function TabAfter(t: int, a: Action): int
    requires a.NextTab? || a.PrevTab? || a.GoTab?
  {
    match a
      case NextTab => (t + 1) % TabCount
      case PrevTab => (t - 1 + TabCount) % TabCount
      case GoTab(tab) => tab
  }

  /** The key switch by action. */
  function ActNext(s: DashState, cfg: Settings, a: Action, env: Env): Transition
    requires ValidState(s)
  {
    match a
      case Exit => Transition(s, [Quit], None)
      case NextTab => Transition(s.(activeTab := TabAfter(s.activeTab, a)), [], None)
      case PrevTab => Transition(s.(activeTab := TabAfter(s.activeTab, a)), [], None)
      case GoTab(_) => Transition(s.(activeTab := TabAfter(s.activeTab, a)), [], None)
      case Refresh => Transition(s.(lastRefresh := 0), [RefreshAll], None)
      case RequestBrief(force) => BriefRequest(s, cfg, force, env)
      case Down => DownNext(s, env)
      case Up => UpNext(s, env)
      case Open => OpenSelected(s, env)
      case PageDown => PageDownNext(s, env)
      case PageUp => PageUpNext(s, env)
      case Bottom => BottomNext(s, env)
      case Top => TopNext(s, env)
      case Ignore => Transition(s, [], None)
  }

  /** The KeyMsg branch of Update. */
  function KeyNext(s: DashState, cfg: Settings, key: string, env: Env): Transition
    requires ValidState(s)
  {
    ActNext(s, cfg, ActionOf(key), env)
  }

  // ---------------------------------------------------------------------------
  // Fetch results
  // ---------------------------------------------------------------------------

  predicate IsResult(msg: Msg) {
    msg.GlobalNews? || msg.LocalNews? || msg.Crypto? || msg.Stocks? || msg.Commodities?
    || msg.Polymarket? || msg.WeatherReport? || msg.BriefReady?
  }

  /** The `loading` and `errors` key of a result message. */
  function SourceOf(msg: Msg): string
    requires IsResult(msg)
  {
    match msg
      case GlobalNews(_) => "global"
      case LocalNews(_) => "local"
      case Crypto(_) => "crypto"
      case Stocks(_) => "stocks"
      case Commodities(_) => "commodities"
      case Polymarket(_) => "poly"
      case WeatherReport(_) => "weather"
      case BriefReady(_, _) => "brief"
  }

  function ErrText<T>(r: Result<T, string>): Option<string> {
    if r.Err? then Some(r.error) else None
  }

  /** The error text of a failed result message. */
  function ErrorOf(msg: Msg): Option<string>
    requires IsResult(msg)
  {
    match msg
      case GlobalNews(r) => ErrText(r)
      case LocalNews(r) => ErrText(r)
      case Crypto(r) => ErrText(r)
      case Stocks(r) => ErrText(r)
      case Commodities(r) => ErrText(r)
      case Polymarket(r) => ErrText(r)
      case WeatherReport(r) => ErrText(r)
      case BriefReady(r, _) => ErrText(r)
  }

  /** The data slots with a result's payload stored; unchanged on an error. */
  function Stored(d: Data, msg: Msg): Data
    requires IsResult(msg)
  {
    match msg
      case GlobalNews(r) => if r.Ok? then d.(globalNews := r.value) else d
      case LocalNews(r) => if r.Ok? then d.(localNews := r.value) else d
      case Crypto(r) => if r.Ok? then d.(cryptoPrices := r.value) else d
      case Stocks(r) => if r.Ok? then d.(stockIndices := r.value) else d
      case Commodities(r) => if r.Ok? then d.(commodities := r.value) else d
      case Polymarket(r) => if r.Ok? then d.(polyMarkets := r.value) else d
      case WeatherReport(r) => if r.Ok? then d.(weatherCond := Some(r.value.cond), forecast := r.value.forecast) else d
      case BriefReady(r, _) => if r.Ok? then d.(brief := Some(r.value)) else d
  }

  /** The shared half of every result case: the source stops loading; an error
      is recorded and the data kept, or the data replaced and the error
      cleared. */
  function Settle(s: DashState, src: string, err: Option<string>, d: Data): DashState {
    var s1 := s.(loading := s.loading - {src});
    if err.Some? then s1.(errors := s1.errors[src := err.value])
    else s1.(data := d, errors := s1.errors - {src})
  }

  /** Whether a news result asks for the first brief. */
  predicate WantsBrief(s: DashState, cfg: Settings, msg: Msg) {
    msg.GlobalNews? && msg.news.Ok? && cfg.apiKey != "" && s.data.brief.None?
  }

  /** After global news: the first brief is asked for when wanted, and the
      News header is re-rendered. */
  function NewsFollowUp(s1: DashState, ask: bool, cfg: Settings, items: seq<Feeds.NewsItem>, env: Env): Transition {
    var s2 := if ask then s1.(loading := s1.loading["brief" := true]) else s1;
    var cmds := if ask then [FetchBrief(cfg.apiKey, items, cfg.briefCacheMins, false)] else [];
    Transition(s2.(newsHeaderLines := env.newsHeaderLines), cmds, None)
  }

  /** After a brief: on success the refresh time and the status line are set,
      and a brief that was not read from the cache is saved to it. */
  function BriefFollowUp(s1: DashState, r: Result<Intel.Brief, string>, fromCache: bool, env: Env): Transition {
    if r.Err? then Transition(s1.(newsHeaderLines := env.newsHeaderLines), [], None)
    else
      var status := if fromCache then "Brief loaded from cache (" + env.cacheStamp + ")" else "Brief generated and cached";
      Transition(s1.(lastRefresh := env.now, statusMsg := status, statusExpiry := env.now + 4,
                     newsHeaderLines := env.newsHeaderLines),
                 [], if fromCache then None else Some(r.value))
  }

  /** The result branches of Update. */
  function ResultNext(s: DashState, cfg: Settings, msg: Msg, env: Env): Transition
    requires IsResult(msg)
  {
    var s1 := Settle(s, SourceOf(msg), ErrorOf(msg), Stored(s.data, msg));
    match msg
      case GlobalNews(r) => NewsFollowUp(s1, WantsBrief(s, cfg, msg), cfg, if r.Ok? then r.value else [], env)
      case LocalNews(_) => Transition(s1.(localNewsHeaderLines := env.localHeaderLines), [], None)
      case WeatherReport(_) => Transition(s1.(localNewsHeaderLines := env.localHeaderLines), [], None)
      case BriefReady(r, fromCache) => BriefFollowUp(s1, r, fromCache, env)
      case _ => Transition(s1, [], None)
  }

  /** Every viewport resized to the window: four columns and six lines less. */
  function Resized(vps: seq<Viewport>, w: int, h: int): (r: seq<Viewport>)
    ensures |r| == |vps|
  {
    seq(|vps|, i requires 0 <= i < |vps| => vps[i].(width := w - 4, height := h - 6))
  }

  /** Model.Update. */
  function Next(s: DashState, cfg: Settings, msg: Msg, env: Env): Transition
    requires ValidState(s)
  {
    match msg
      case Resize(w, h) => Transition(s.(width := w, height := h, viewports := Resized(s.viewports, w, h)), [], None)
      case KeyPress(key) => KeyNext(s, cfg, key, env)
      case SpinnerTick => Transition(s, [SpinnerFrame], None)
      case Tick => Transition(s.(lastRefresh := 0), [RefreshAll, TickEvery(cfg.refreshSec)], None)
      case OpenedURL(_) => Transition(s, [], None)
      case ClearStatus => Transition(if env.now > s.statusExpiry then s.(statusMsg := "") else s, [], None)
      case _ => ResultNext(s, cfg, msg, env)
  }

  // ---------------------------------------------------------------------------
  // Properties of Update
  // ---------------------------------------------------------------------------

  lemma InitialIsValid()
    ensures ValidState(InitialState)
  {
  }

  /** Every action keeps the state valid. */
  lemma ActKeepsValid(s: DashState, cfg: Settings, a: Action, env: Env)
    requires ValidState(s) && (a.GoTab? ==> 0 <= a.tab < TabCount)
    ensures ValidState(ActNext(s, cfg, a, env).state)
  {
    if a.Down? || a.Up? || a.PageDown? || a.PageUp? || a.Bottom? || a.Top? {
      NavKeepsValid(s, env);
    } else {
      ControlKeepsValid(s, cfg, a, env);
    }
  }

  /** The other keys keep the state valid. */
  lemma ControlKeepsValid(s: DashState, cfg: Settings, a: Action, env: Env)
    requires ValidState(s) && (a.GoTab? ==> 0 <= a.tab < TabCount)
    requires !(a.Down? || a.Up? || a.PageDown? || a.PageUp? || a.Bottom? || a.Top?)
    ensures ValidState(ActNext(s, cfg, a, env).state)
  {
  }

  /** The selection and scrolling keys keep the state valid. */
  lemma NavKeepsValid(s: DashState, env: Env)
    requires ValidState(s)
    ensures ValidState(DownNext(s, env).state) && ValidState(UpNext(s, env).state)
    ensures ValidState(PageDownNext(s, env).state) && ValidState(PageUpNext(s, env).state)
    ensures ValidState(BottomNext(s, env).state) && ValidState(TopNext(s, env).state)
  {
    LineKeysKeepValid(s, env);
    PageKeysKeepValid(s, env);
    EndKeysKeepValid(s, env);
  }

  /** j/down and k/up keep the state valid. */
  lemma LineKeysKeepValid(s: DashState, env: Env)
    requires ValidState(s)
    ensures ValidState(DownNext(s, env).state) && ValidState(UpNext(s, env).state)
  {
  }

  /** d and u keep the state valid. */
  lemma PageKeysKeepValid(s: DashState, env: Env)
    requires ValidState(s)
    ensures ValidState(PageDownNext(s, env).state) && ValidState(PageUpNext(s, env).state)
  {
  }

  /** G and g keep the state valid. */
  lemma EndKeysKeepValid(s: DashState, env: Env)
    requires ValidState(s)
    ensures ValidState(BottomNext(s, env).state) && ValidState(TopNext(s, env).state)
  {
  }

  /** Every message keeps the tab in [0, 3), three viewports and the selections
      non-negative. */
  lemma NextKeepsValid(s: DashState, cfg: Settings, msg: Msg, env: Env)
    requires ValidState(s)
    ensures ValidState(Next(s, cfg, msg, env).state)
  {
    if msg.KeyPress? {
      ActKeepsValid(s, cfg, ActionOf(msg.key), env);
    } else if IsResult(msg) {
      ResultKeepsValid(s, cfg, msg, env);
    }
  }

  lemma ResultKeepsValid(s: DashState, cfg: Settings, msg: Msg, env: Env)
    requires ValidState(s) && IsResult(msg)
    ensures ValidState(ResultNext(s, cfg, msg, env).state)
  {
  }

  /** The tab keys: next and previous tab modulo 3, digits pick a tab, and
      nothing else changes. */
  lemma TabKeys(s: DashState, cfg: Settings, env: Env, t: int)
    requires ValidState(s)
    ensures ActNext(s, cfg, NextTab, env) == Transition(s.(activeTab := (s.activeTab + 1) % 3), [], None)
    ensures ActNext(s, cfg, PrevTab, env) == Transition(s.(activeTab := (s.activeTab + 2) % 3), [], None)
    ensures ActNext(s, cfg, GoTab(t), env) == Transition(s.(activeTab := t), [], None)
    ensures 0 <= ActNext(s, cfg, NextTab, env).state.activeTab < 3
    ensures 0 <= ActNext(s, cfg, PrevTab, env).state.activeTab < 3
  {
  }

  /** On the News tab with articles, the selection keys move the selection by
      one or ten, clamped, or to either end, and ask for a redraw. */
  lemma NewsSelectionKeys(s: DashState, env: Env)
    requires ValidState(s) && s.activeTab == TabNews && |s.data.globalNews| > 0
    ensures var n := |s.data.globalNews|; var i := s.selectedNewsIdx;
      && DownNext(s, env).state.selectedNewsIdx == MinInt(i + 1, n - 1)
      && UpNext(s, env).state.selectedNewsIdx == MaxInt(i - 1, 0)
      && PageDownNext(s, env).state.selectedNewsIdx == MinInt(i + 10, n - 1)
      && PageUpNext(s, env).state.selectedNewsIdx == MaxInt(i - 10, 0)
      && BottomNext(s, env).state.selectedNewsIdx == n - 1
      && TopNext(s, env).state.selectedNewsIdx == 0
      && TopNext(s, env).state.viewports[TabNews].yOffset == 0
      && DownNext(s, env).cmds == UpNext(s, env).cmds == PageDownNext(s, env).cmds == [Redraw(s.width, s.height)]
      && PageUpNext(s, env).cmds == BottomNext(s, env).cmds == TopNext(s, env).cmds == [Redraw(s.width, s.height)]
  {
  }

  /** With a selection inside the article list, no action takes it outside. */
  lemma NewsSelectionInRange(s: DashState, cfg: Settings, a: Action, env: Env)
    requires ValidState(s) && |s.data.globalNews| > 0 && s.selectedNewsIdx < |s.data.globalNews|
    ensures 0 <= ActNext(s, cfg, a, env).state.selectedNewsIdx < |s.data.globalNews|
  {
  }

  /** A moved selection is scrolled into view in its own tab's viewport and
      the other viewports are untouched. */
  lemma SelectionScrolls(s: DashState, env: Env, idx: int)
    requires ValidState(s)
    ensures SelectNews(s, idx, env).viewports == s.viewports[TabNews := ScrolledIntoView(s.viewports[TabNews], env.newsHeaderLines, idx)]
    ensures SelectLocal(s, idx, env).viewports == s.viewports[TabLocal := ScrolledIntoView(s.viewports[TabLocal], env.localHeaderLines, idx)]
    ensures SelectNews(s, idx, env).selectedLocalNewsIdx == s.selectedLocalNewsIdx
    ensures SelectLocal(s, idx, env).selectedNewsIdx == s.selectedNewsIdx
  {
  }

  /** On the Local tab, j/k only scroll its viewport a line and g only goes to
      the top. */
  lemma LocalTabScrolls(s: DashState, env: Env)
    requires ValidState(s) && s.activeTab == TabLocal
    ensures DownNext(s, env) == Transition(s.(viewports := s.viewports[TabLocal := LineDown(s.viewports[TabLocal], 1)]), [], None)
    ensures UpNext(s, env) == Transition(s.(viewports := s.viewports[TabLocal := LineUp(s.viewports[TabLocal], 1)]), [], None)
    ensures TopNext(s, env) == Transition(s.(viewports := s.viewports[TabLocal := GotoTop(s.viewports[TabLocal])]), [], None)
  {
  }

  /** Only d, u and G on the Local tab move the Local selection, and they keep
      it inside the list when the list is not empty. */
  lemma LocalSelectionKeys(s: DashState, cfg: Settings, a: Action, env: Env)
    requires ValidState(s)
    ensures ActNext(s, cfg, a, env).state.selectedLocalNewsIdx != s.selectedLocalNewsIdx ==>
      s.activeTab == TabLocal && (a.PageDown? || a.PageUp? || a.Bottom?)
    ensures s.activeTab == TabLocal && s.selectedLocalNewsIdx < |s.data.localNews| ==>
      ActNext(s, cfg, a, env).state.selectedLocalNewsIdx < |s.data.localNews|
  {
  }

  /** q and ctrl+c quit without touching the state; r and ticks only zero the
      refresh time and re-issue the fetches, leaving `loading` alone. */
  lemma QuitAndRefresh(s: DashState, cfg: Settings, env: Env)
    requires ValidState(s)
    ensures ActNext(s, cfg, Exit, env) == Transition(s, [Quit], None)
    ensures ActNext(s, cfg, Refresh, env) == Transition(s.(lastRefresh := 0), [RefreshAll], None)
    ensures Next(s, cfg, Tick, env) == Transition(s.(lastRefresh := 0), [RefreshAll, TickEvery(cfg.refreshSec)], None)
  {
  }

  /** b and B ask for a brief (B bypassing the cache) only with an API key. */
  lemma BriefKeys(s: DashState, cfg: Settings, env: Env, force: bool)
    requires ValidState(s)
    ensures var t := ActNext(s, cfg, RequestBrief(force), env);
      && (cfg.apiKey == "" ==> t == Transition(s, [], None))
      && (cfg.apiKey != "" ==>
            t.state.loading == s.loading["brief" := true]
            && t.cmds == [FetchBrief(cfg.apiKey, s.data.globalNews, cfg.briefCacheMins, force)]
            && t.state.data == s.data)
  {
  }

  /** What enter does with the selected item: only the status line and its
      expiry, 3 seconds on, change; the link is opened when there is one. */
  predicate OpensItem(s: DashState, t: Transition, item: Feeds.NewsItem, env: Env) {
    && (item.url != "" ==> t.cmds == [OpenURL(item.url)] && t.state.statusMsg == "Opening: " + Truncate(item.title, 60))
    && (item.url == "" ==> t.cmds == [] && t.state.statusMsg == "No URL available for this article")
    && t.state == s.(statusMsg := t.state.statusMsg, statusExpiry := env.now + 3)
  }

  /** "enter" on the News or Local tab acts on the selected article; without a
      selected article it does nothing. */
  lemma EnterOpens(s: DashState, cfg: Settings, env: Env)
    requires ValidState(s)
    ensures var t := ActNext(s, cfg, Open, env);
      s.activeTab == TabNews && s.selectedNewsIdx < |s.data.globalNews| ==>
        OpensItem(s, t, s.data.globalNews[s.selectedNewsIdx], env)
    ensures var t := ActNext(s, cfg, Open, env);
      s.activeTab == TabLocal && s.selectedLocalNewsIdx < |s.data.localNews| ==>
        OpensItem(s, t, s.data.localNews[s.selectedLocalNewsIdx], env)
    ensures var t := ActNext(s, cfg, Open, env);
      !(s.activeTab == TabNews && s.selectedNewsIdx < |s.data.globalNews|) &&
      !(s.activeTab == TabLocal && s.selectedLocalNewsIdx < |s.data.localNews|) ==>
        t.state == s && t.cmds == []
  {
  }

  /** The shared bookkeeping of a result. */
  lemma SettleFacts(s: DashState, src: string, err: Option<string>, d: Data)
    ensures var s' := Settle(s, src, err, d);
      && src !in s'.loading
      && s'.loading == s.loading - {src}
      && s'.errors - {src} == s.errors - {src}
      && (err.Some? ==> src in s'.errors && s'.errors[src] == err.value && s'.data == s.data)
      && (err.None? ==> src !in s'.errors && s'.data == d)
  {
    var s1 := s.(loading := s.loading - {src});
    if err.Some? {
      assert s1.errors[src := err.value] - {src} == s.errors - {src};
    }
  }

  /** Every result message clears its own `loading` entry, and changes no other
      entry of `loading` but "brief", nor any other entry of `errors`. A failure
      records the error and keeps the data; a success stores the payload and
      clears the error. */
  lemma ResultBookkeeping(s: DashState, cfg: Settings, msg: Msg, env: Env)
    requires IsResult(msg)
    ensures var s' := ResultNext(s, cfg, msg, env).state; var src := SourceOf(msg);
      && src !in s'.loading
      && s'.loading - {src, "brief"} == s.loading - {src, "brief"}
      && s'.errors - {src} == s.errors - {src}
      && (ErrorOf(msg).Some? ==> src in s'.errors && s'.errors[src] == ErrorOf(msg).value && s'.data == s.data)
      && (ErrorOf(msg).None? ==> src !in s'.errors && s'.data == Stored(s.data, msg))
  {
    var src := SourceOf(msg);
    var s1 := Settle(s, src, ErrorOf(msg), Stored(s.data, msg));
    SettleFacts(s, src, ErrorOf(msg), Stored(s.data, msg));
    FollowUpBookkeeping(s, cfg, msg, env);
    assert s1.loading["brief" := true] - {src, "brief"} == s1.loading - {src, "brief"};
  }

  /** What a result does after the shared bookkeeping touches neither the data
      nor the errors, and of `loading` at most the "brief" entry. */
  lemma FollowUpBookkeeping(s: DashState, cfg: Settings, msg: Msg, env: Env)
    requires IsResult(msg)
    ensures var s1 := Settle(s, SourceOf(msg), ErrorOf(msg), Stored(s.data, msg));
      var s' := ResultNext(s, cfg, msg, env).state;
      && s'.data == s1.data && s'.errors == s1.errors
      && (s'.loading == s1.loading || s'.loading == s1.loading["brief" := true])
  {
  }

  /** A successful result stores exactly its payload. */
  lemma StoredPayloads(d: Data, msg: Msg)
    requires IsResult(msg) && ErrorOf(msg).None?
    ensures msg.GlobalNews? ==> Stored(d, msg) == d.(globalNews := msg.news.value)
    ensures msg.LocalNews? ==> Stored(d, msg) == d.(localNews := msg.local.value)
    ensures msg.Crypto? ==> Stored(d, msg) == d.(cryptoPrices := msg.prices.value)
    ensures msg.Stocks? ==> Stored(d, msg) == d.(stockIndices := msg.indices.value)
    ensures msg.Commodities? ==> Stored(d, msg) == d.(commodities := msg.goods.value)
    ensures msg.Polymarket? ==> Stored(d, msg) == d.(polyMarkets := msg.markets.value)
    ensures msg.WeatherReport? ==> Stored(d, msg) == d.(weatherCond := Some(msg.report.value.cond), forecast := msg.report.value.forecast)
    ensures msg.BriefReady? ==> Stored(d, msg) == d.(brief := Some(msg.brief.value))
  {
  }

  /** "brief" is left alone by every result but the brief's own and a news
      result that asks for the first brief. */
  lemma BriefLoadingUntouched(s: DashState, cfg: Settings, msg: Msg, env: Env)
    requires IsResult(msg) && !msg.BriefReady? && !WantsBrief(s, cfg, msg)
    ensures ResultNext(s, cfg, msg, env).state.loading == s.loading - {SourceOf(msg)}
  {
  }

  /** The first news with an API key and no brief marks the brief as loading
      and asks for one brief for exactly these headlines; otherwise a news
      result issues nothing. */
  lemma FirstNewsAsksForBrief(s: DashState, cfg: Settings, items: seq<Feeds.NewsItem>, env: Env)
    ensures var t := ResultNext(s, cfg, GlobalNews(Ok(items)), env);
      && (cfg.apiKey != "" && s.data.brief.None? ==>
            t.state.loading == (s.loading - {"global"})["brief" := true]
            && t.cmds == [FetchBrief(cfg.apiKey, items, cfg.briefCacheMins, false)])
      && (cfg.apiKey == "" || s.data.brief.Some? ==> t.cmds == [] && t.state.loading == s.loading - {"global"})
  {
  }

  /** A failed news fetch never asks for a brief. */
  lemma FailedNewsAsksNothing(s: DashState, cfg: Settings, e: string, env: Env)
    ensures ResultNext(s, cfg, GlobalNews(Err(e)), env).cmds == []
  {
  }

  /** A successful brief is stored with its error cleared and the refresh time
      set, and written to the cache exactly when it did not come from there. */
  lemma BriefArrives(s: DashState, cfg: Settings, b: Intel.Brief, fromCache: bool, env: Env)
    ensures var t := ResultNext(s, cfg, BriefReady(Ok(b), fromCache), env);
      && t.state.data == s.data.(brief := Some(b))
      && "brief" !in t.state.errors && "brief" !in t.state.loading
      && t.state.lastRefresh == env.now
      && t.state.statusExpiry == env.now + 4
      && t.save == (if fromCache then None else Some(b))
  {
  }

  /** A failed brief keeps the old one and saves nothing. */
  lemma BriefFails(s: DashState, cfg: Settings, e: string, fromCache: bool, env: Env)
    ensures var t := ResultNext(s, cfg, BriefReady(Err(e), fromCache), env);
      && t.state.data == s.data && t.save == None && t.state.errors["brief"] == e
      && t.state.lastRefresh == s.lastRefresh
  {
  }

  /** The status line is cleared only after its expiry. */
  lemma StatusExpiry(s: DashState, cfg: Settings, env: Env)
    requires ValidState(s)
    ensures Next(s, cfg, ClearStatus, env).state.statusMsg == (if env.now > s.statusExpiry then "" else s.statusMsg)
    ensures Next(s, cfg, ClearStatus, env).state == s.(statusMsg := Next(s, cfg, ClearStatus, env).state.statusMsg)
  {
  }

  // ---------------------------------------------------------------------------
  // fetchBrief and loadCachedBrief
  // ---------------------------------------------------------------------------

  /** The message fetchBrief's command yields: the cache is consulted unless
      forced or disabled, and `generated` is what GenerateBrief returns. */
  function FetchBriefMsg(files: map<string, Cache.FileData>, home: string, faults: Cache.Faults, now: int,
                         cacheMins: int, force: bool, generated: Result<Intel.Brief, string>): Msg
  {
    if !force && cacheMins > 0 then
      var cached := Cache.LoadOf(files, home, faults, cacheMins * 60, now);
      if cached.Ok? && cached.value.Some? then BriefReady(Ok(cached.value.value), true)
      else BriefReady(generated, false)
    else BriefReady(generated, false)
  }

  /** The message loadCachedBrief's command yields, if any. */
  function LoadCachedBriefMsg(files: map<string, Cache.FileData>, home: string, faults: Cache.Faults, now: int,
                              cacheMins: int): Option<Msg>
  {
    if cacheMins == 0 then None
    else
      var cached := Cache.LoadOf(files, home, faults, cacheMins * 60, now);
      if cached.Err? || cached.value.None? then None else Some(BriefReady(Ok(cached.value.value), true))
  }

  /** fetchBrief uses the cache only when not forced and enabled: a hit is a
      from-cache brief, anything else is the generated one. */
  lemma FetchBriefGate(files: map<string, Cache.FileData>, home: string, faults: Cache.Faults, now: int,
                       cacheMins: int, force: bool, generated: Result<Intel.Brief, string>)
    ensures var m := FetchBriefMsg(files, home, faults, now, cacheMins, force, generated);
      var hit := Cache.LoadOf(files, home, faults, cacheMins * 60, now);
      && (force || cacheMins <= 0 ==> m == BriefReady(generated, false))
      && (!force && cacheMins > 0 && hit.Ok? && hit.value.Some? ==> m == BriefReady(Ok(hit.value.value), true))
      && (!force && cacheMins > 0 && !(hit.Ok? && hit.value.Some?) ==> m == BriefReady(generated, false))
  {
  }

  /** loadCachedBrief yields nothing when the cache is disabled or misses, and
      otherwise the cached brief marked as such. */
  lemma LoadCachedBriefGate(files: map<string, Cache.FileData>, home: string, faults: Cache.Faults, now: int, cacheMins: int)
    ensures var m := LoadCachedBriefMsg(files, home, faults, now, cacheMins);
      var hit := Cache.LoadOf(files, home, faults, cacheMins * 60, now);
      && (cacheMins == 0 ==> m.None?)
      && (m.Some? <==> cacheMins != 0 && hit.Ok? && hit.value.Some?)
      && (m.Some? ==> m.value == BriefReady(Ok(hit.value.value), true))
  {
  }

  /** A brief saved fresh is what the next fetchBrief finds while it is within
      the cache age: the automatic request then needs no generation. */
  lemma SavedBriefIsFoundAgain(files: map<string, Cache.FileData>, home: string, faults: Cache.Faults,
                               b: Intel.Brief, now: int, cacheMins: int, generated: Result<Intel.Brief, string>)
    requires faults == Cache.NoFaults && cacheMins > 0 && now - b.generatedAt <= cacheMins * 60
    ensures FetchBriefMsg(Cache.SavedFiles(files, home, faults, Some(b)), home, faults, now, cacheMins, false, generated)
            == BriefReady(Ok(b), true)
  {
    Cache.SaveThenLoad(files, home, b, cacheMins * 60, now);
  }

  /** fetchBrief's command: GenerateBrief's result stands for the network
      call, and the cache is read only in the guarded branch. */
  method RunFetchBrief(disk: Cache.Disk, now: int, cacheMins: int, force: bool, generated: Result<Intel.Brief, string>)
    returns (msg: Msg)
    ensures msg == FetchBriefMsg(disk.files, disk.home, disk.faults, now, cacheMins, force, generated)
  {
    if !force && cacheMins > 0 {
      var cached := disk.LoadCachedBrief(cacheMins * 60, now);
      if cached.Ok? && cached.value.Some? {
        return BriefReady(Ok(cached.value.value), true);
      }
    }
    return BriefReady(generated, false);
  }

  /** loadCachedBrief's command. */
  method RunLoadCachedBrief(disk: Cache.Disk, now: int, cacheMins: int) returns (msg: Option<Msg>)
    ensures msg == LoadCachedBriefMsg(disk.files, disk.home, disk.faults, now, cacheMins)
  {
    if cacheMins == 0 {
      return None;
    }
    var cached := disk.LoadCachedBrief(cacheMins * 60, now);
    if cached.Err? || cached.value.None? {
      return None;
    }
    return Some(BriefReady(Ok(cached.value.value), true));
  }


  // ---------------------------------------------------------------------------
  // The model as the Go value Update changes
  // ---------------------------------------------------------------------------

  class Model {
    const cfg: Settings
    const disk: Cache.Disk
    const viewports: array<Viewport>
    var width: int
    var height: int
    var activeTab: int
    var data: Data
    var selectedNewsIdx: int
    var newsHeaderLines: int
    var selectedLocalNewsIdx: int
    var localNewsHeaderLines: int
    var statusMsg: string
    var statusExpiry: int
    var loading: map<string, bool>
    var errors: map<string, string>
    var lastRefresh: int

    function State(): DashState
      reads this, viewports
    {
      DashState(width, height, activeTab, data, selectedNewsIdx, newsHeaderLines, selectedLocalNewsIdx,
                localNewsHeaderLines, statusMsg, statusExpiry, loading, errors, lastRefresh, viewports[..])
    }

    predicate Valid()
      reads this, viewports
    {
      viewports.Length == TabCount && ValidState(State())
    }

    /** NewModel. */
    constructor (cfg: Settings, disk: Cache.Disk)
      ensures this.cfg == cfg && this.disk == disk && fresh(viewports)
      ensures Valid() && State() == InitialState
    {
      this.cfg := cfg;
      this.disk := disk;
      viewports := new Viewport[TabCount](_ => Viewport(80, 30, 0));
      width, height, activeTab, data := 0, 0, TabOverview, EmptyData;
      selectedNewsIdx, newsHeaderLines, selectedLocalNewsIdx, localNewsHeaderLines := 0, 0, 0, 0;
      statusMsg, statusExpiry := "", 0;
      loading, errors, lastRefresh := map[], map[], 0;
      new;
      assert viewports[..] == InitialState.viewports;
    }

    /** The WindowSizeMsg case: every viewport takes the new size. */
    method Resize(w: int, h: int)
      requires Valid()
      modifies this, viewports
      ensures State() == old(State()).(width := w, height := h, viewports := Resized(old(viewports[..]), w, h))
    {
      width, height := w, h;
      for i := 0 to viewports.Length
        modifies viewports
        invariant forall j :: 0 <= j < i ==> viewports[j] == old(viewports[j]).(width := w - 4, height := h - 6)
        invariant forall j :: i <= j < viewports.Length ==> viewports[j] == old(viewports[j])
      {
        viewports[i] := viewports[i].(width := w - 4, height := h - 6);
      }
      assert viewports[..] == Resized(old(viewports[..]), w, h);
    }

    /** Select article idx on the News tab and scroll it into view. */
    method SelectNewsAt(idx: int, env: Env)
      requires Valid()
      modifies this, viewports
      ensures State() == SelectNews(old(State()), idx, env)
    {
      selectedNewsIdx := idx;
      newsHeaderLines := env.newsHeaderLines;
      ScrollNewsIntoView(viewports, TabNews, newsHeaderLines, selectedNewsIdx);
    }

    /** Select article idx on the Local tab and scroll it into view. */
    method SelectLocalAt(idx: int, env: Env)
      requires Valid()
      modifies this, viewports
      ensures State() == SelectLocal(old(State()), idx, env)
    {
      selectedLocalNewsIdx := idx;
      localNewsHeaderLines := env.localHeaderLines;
      ScrollNewsIntoView(viewports, TabLocal, localNewsHeaderLines, selectedLocalNewsIdx);
    }

    /** Replace the active tab's viewport. */
    method ScrollTo(v: Viewport)
      requires Valid()
      modifies viewports
      ensures Transition(State(), [], None) == ScrollActive(old(State()), v)
    {
      viewports[activeTab] := v;
    }

    method KeyDown(env: Env) returns (cmds: seq<Cmd>)
      requires Valid()
      modifies this, viewports
      ensures Transition(State(), cmds, None) == DownNext(old(State()), env)
    {
      var n := |data.globalNews|;
      if activeTab == TabNews && n > 0 {
        cmds := [Redraw(width, height)];
        SelectNewsAt(MinInt(selectedNewsIdx + 1, n - 1), env);
      } else {
        cmds := [];
        ScrollTo(LineDown(viewports[activeTab], 1));
      }
    }

    method KeyUp(env: Env) returns (cmds: seq<Cmd>)
      requires Valid()
      modifies this, viewports
      ensures Transition(State(), cmds, None) == UpNext(old(State()), env)
    {
      var n := |data.globalNews|;
      if activeTab == TabNews && n > 0 {
        cmds := [Redraw(width, height)];
        SelectNewsAt(MaxInt(selectedNewsIdx - 1, 0), env);
      } else {
        cmds := [];
        ScrollTo(LineUp(viewports[activeTab], 1));
      }
    }

    method KeyPageDown(env: Env) returns (cmds: seq<Cmd>)
      requires Valid()
      modifies this, viewports
      ensures Transition(State(), cmds, None) == PageDownNext(old(State()), env)
    {
      cmds := [];
      if activeTab == TabNews {
        cmds := [Redraw(width, height)];
        SelectNewsAt(MinInt(selectedNewsIdx + 10, MaxInt(|data.globalNews| - 1, 0)), env);
      } else if activeTab == TabLocal {
        SelectLocalAt(MinInt(selectedLocalNewsIdx + 10, MaxInt(|data.localNews| - 1, 0)), env);
      } else {
        ScrollTo(HalfViewDown(viewports[activeTab]));
      }
    }

    method KeyPageUp(env: Env) returns (cmds: seq<Cmd>)
      requires Valid()
      modifies this, viewports
      ensures Transition(State(), cmds, None) == PageUpNext(old(State()), env)
    {
      cmds := [];
      if activeTab == TabNews {
        cmds := [Redraw(width, height)];
        SelectNewsAt(MaxInt(selectedNewsIdx - 10, 0), env);
      } else if activeTab == TabLocal {
        SelectLocalAt(MaxInt(selectedLocalNewsIdx - 10, 0), env);
      } else {
        ScrollTo(HalfViewUp(viewports[activeTab]));
      }
    }

    method KeyBottom(env: Env) returns (cmds: seq<Cmd>)
      requires Valid()
      modifies this, viewports
      ensures Transition(State(), cmds, None) == BottomNext(old(State()), env)
    {
      cmds := [];
      if activeTab == TabNews {
        cmds := [Redraw(width, height)];
        SelectNewsAt(MaxInt(|data.globalNews| - 1, 0), env);
      } else if activeTab == TabLocal {
        SelectLocalAt(MaxInt(|data.localNews| - 1, 0), env);
      } else {
        ScrollTo(GotoBottom(viewports[activeTab], env.overviewBottom));
      }
    }

    method KeyTop(env: Env) returns (cmds: seq<Cmd>)
      requires Valid()
      modifies this, viewports
      ensures Transition(State(), cmds, None) == TopNext(old(State()), env)
    {
      if activeTab == TabNews {
        cmds := [Redraw(width, height)];
        selectedNewsIdx := 0;
        newsHeaderLines := env.newsHeaderLines;
        viewports[TabNews] := GotoTop(viewports[TabNews]);
      } else {
        cmds := [];
        ScrollTo(GotoTop(viewports[activeTab]));
      }
    }

    /** The "enter" case. */
    method OpenArticle(env: Env) returns (cmds: seq<Cmd>)
      requires Valid()
      modifies this
      ensures Transition(State(), cmds, None) == OpenSelected(old(State()), env)
    {
      cmds := [];
      var item: Feeds.NewsItem;
      if activeTab == TabNews && selectedNewsIdx < |data.globalNews| {
        item := data.globalNews[selectedNewsIdx];
      } else if activeTab == TabLocal && selectedLocalNewsIdx < |data.localNews| {
        item := data.localNews[selectedLocalNewsIdx];
      } else {
        return;
      }
      if item.url != "" {
        cmds := cmds + [OpenURL(item.url)];
        statusMsg := "Opening: " + Truncate(item.title, 60);
      } else {
        statusMsg := "No URL available for this article";
      }
      statusExpiry := env.now + 3;
    }

    /** The "b" and "B" cases. */
    method AskForBrief(force: bool, env: Env) returns (cmds: seq<Cmd>)
      requires Valid()
      modifies this
      ensures Transition(State(), cmds, None) == BriefRequest(old(State()), cfg, force, env)
    {
      cmds := [];
      if cfg.apiKey != "" {
        loading := loading["brief" := true];
        if force {
          statusMsg := "Forcing fresh brief (ignoring cache)...";
          statusExpiry := env.now + 3;
        }
        cmds := cmds + [FetchBrief(cfg.apiKey, data.globalNews, cfg.briefCacheMins, force)];
      }
    }

    /** The selection and scrolling keys. */
    method Navigate(a: Action, env: Env) returns (cmds: seq<Cmd>)
      requires Valid() && (a.Down? || a.Up? || a.PageDown? || a.PageUp? || a.Bottom? || a.Top?)
      modifies this, viewports
      ensures Transition(State(), cmds, None) == ActNext(old(State()), cfg, a, env)
    {
      match a
      case Down =>
        cmds := KeyDown(env);
      case Up =>
        cmds := KeyUp(env);
      case PageDown =>
        cmds := KeyPageDown(env);
      case PageUp =>
        cmds := KeyPageUp(env);
      case Bottom =>
        cmds := KeyBottom(env);
      case Top =>
        cmds := KeyTop(env);
    }

    /** The KeyMsg case of Update. */
    method HandleKey(key: string, env: Env) returns (cmds: seq<Cmd>)
      requires Valid()
      modifies this, viewports
      ensures Transition(State(), cmds, None) == KeyNext(old(State()), cfg, key, env)
    {
      var a := ActionOf(key);
      cmds := [];
      if a.Down? || a.Up? || a.PageDown? || a.PageUp? || a.Bottom? || a.Top? {
        cmds := Navigate(a, env);
        return;
      }
      match a
      case Exit =>
        cmds := [Quit];
      case NextTab =>
        activeTab := (activeTab + 1) % TabCount;
      case PrevTab =>
        activeTab := (activeTab - 1 + TabCount) % TabCount;
      case GoTab(t) =>
        activeTab := t;
      case Refresh =>
        lastRefresh := 0;
        cmds := [RefreshAll];
      case RequestBrief(force) =>
        cmds := AskForBrief(force, env);
      case Open =>
        cmds := OpenArticle(env);
      case Ignore =>
    }

    /** The shared half of the result cases. */
    method SettleResult(msg: Msg)
      requires IsResult(msg)
      modifies this
      ensures State() == Settle(old(State()), SourceOf(msg), ErrorOf(msg), Stored(old(data), msg))
    {
      var src := SourceOf(msg);
      loading := loading - {src};
      var e := ErrorOf(msg);
      if e.Some? {
        errors := errors[src := e.value];
      } else {
        data := Stored(data, msg);
        errors := errors - {src};
      }
    }

    /** After global news. */
    method NewsArrived(ask: bool, items: seq<Feeds.NewsItem>, env: Env) returns (cmds: seq<Cmd>)
      modifies this
      ensures Transition(State(), cmds, None) == NewsFollowUp(old(State()), ask, cfg, items, env)
    {
      cmds := [];
      if ask {
        loading := loading["brief" := true];
        cmds := cmds + [FetchBrief(cfg.apiKey, items, cfg.briefCacheMins, false)];
      }
      newsHeaderLines := env.newsHeaderLines;
    }

    /** After a brief; a fresh one is written to the disk cache. */
    method BriefArrived(r: Result<Intel.Brief, string>, fromCache: bool, env: Env)
      modifies this, disk
      ensures var t := BriefFollowUp(old(State()), r, fromCache, env);
        State() == t.state && t.cmds == []
        && disk.files == Cache.SavedFiles(old(disk.files), disk.home, disk.faults, t.save)
    {
      if r.Ok? {
        lastRefresh := env.now;
        if fromCache {
          statusMsg := "Brief loaded from cache (" + env.cacheStamp + ")";
        } else {
          disk.SaveCachedBrief(Some(r.value));
          statusMsg := "Brief generated and cached";
        }
        statusExpiry := env.now + 4;
      }
      newsHeaderLines := env.newsHeaderLines;
    }

    /** The global news case. */
    method HandleNews(msg: Msg, env: Env) returns (cmds: seq<Cmd>)
      requires msg.GlobalNews?
      modifies this
      ensures Transition(State(), cmds, None) == ResultNext(old(State()), cfg, msg, env)
    {
      var ask := WantsBrief(State(), cfg, msg);
      SettleResult(msg);
      cmds := NewsArrived(ask, if msg.news.Ok? then msg.news.value else [], env);
    }

    /** The brief case; a fresh brief is written to the disk cache. */
    method HandleBrief(msg: Msg, env: Env)
      requires msg.BriefReady?
      modifies this, disk
      ensures var t := ResultNext(old(State()), cfg, msg, env);
        State() == t.state && t.cmds == []
        && disk.files == Cache.SavedFiles(old(disk.files), disk.home, disk.faults, t.save)
    {
      SettleResult(msg);
      BriefArrived(msg.brief, msg.fromCache, env);
    }

    /** The local news and weather cases, which re-render the Local header. */
    method HandleLocal(msg: Msg, env: Env)
      requires msg.LocalNews? || msg.WeatherReport?
      modifies this
      ensures Transition(State(), [], None) == ResultNext(old(State()), cfg, msg, env)
    {
      SettleResult(msg);
      localNewsHeaderLines := env.localHeaderLines;
    }

    /** The result cases of Update. */
    method HandleResult(msg: Msg, env: Env) returns (cmds: seq<Cmd>)
      requires IsResult(msg)
      modifies this, disk
      ensures var t := ResultNext(old(State()), cfg, msg, env);
        State() == t.state && cmds == t.cmds
        && disk.files == Cache.SavedFiles(old(disk.files), disk.home, disk.faults, t.save)
    {
      cmds := [];
      if msg.GlobalNews? {
        cmds := HandleNews(msg, env);
      } else if msg.BriefReady? {
        HandleBrief(msg, env);
      } else if msg.LocalNews? || msg.WeatherReport? {
        HandleLocal(msg, env);
      } else {
        SettleResult(msg);
      }
    }

    /** The window, timer and status messages. */
    method HandleSimple(msg: Msg, env: Env) returns (cmds: seq<Cmd>)
      requires Valid() && !msg.KeyPress? && !IsResult(msg)
      modifies this, viewports
      ensures Transition(State(), cmds, None) == Next(old(State()), cfg, msg, env)
    {
      cmds := [];
      match msg
      case Resize(w, h) =>
        Resize(w, h);
      case SpinnerTick =>
        cmds := [SpinnerFrame];
      case Tick =>
        lastRefresh := 0;
        cmds := [RefreshAll, TickEvery(cfg.refreshSec)];
      case OpenedURL(_) =>
      case ClearStatus =>
        if env.now > statusExpiry {
          statusMsg := "";
        }
    }

    /** Model.Update: applies one message and returns the commands. */
    method Update(msg: Msg, env: Env) returns (cmds: seq<Cmd>)
      requires Valid()
      modifies this, viewports, disk
      ensures Valid()
      ensures var t := Next(old(State()), cfg, msg, env);
        State() == t.state && cmds == t.cmds
        && disk.files == Cache.SavedFiles(old(disk.files), disk.home, disk.faults, t.save)
    {
      NextKeepsValid(State(), cfg, msg, env);
      if msg.KeyPress? {
        cmds := HandleKey(msg.key, env);
      } else if IsResult(msg) {
        cmds := HandleResult(msg, env);
      } else {
        cmds := HandleSimple(msg, env);
      }
    }
  }
}

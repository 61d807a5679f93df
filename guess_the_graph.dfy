/**
 * The "guess the figure" game: a hidden chart whose six properties are
 * revealed one per button press in a fixed order, with a saturating cursor
 * and a reset that wipes the session.
 */
module GuessTheGraph {
  import opened Wrappers

  /** The six keys of PROPERTIES; each also names the reveal step that applies it. */
  datatype Prop = Trace | XLabel | YLabel | XTicks | YTicks | Title

  /** A tick: its label and the axis position it labels. */
  datatype Tick = Tick(text: string, pos: real)

  datatype SeriesKind = Scatter | Bar

  /** A plotted data trace (`go.Scatter`, `go.Bar`): its kind and its points. */
  datatype Series = Series(kind: SeriesKind, xs: seq<real>, ys: seq<real>)

  /** The properties a figure is built from. */
  datatype Properties = Properties(
    xlabel: string, ylabel: string, xticks: seq<Tick>, yticks: seq<Tick>, trace: Series, title: string)

  /** PROPERTIES: the default of every property, used when a figure is built without it. */
  const Defaults := Properties("", "", [], [], Series(Scatter, [], []), "")

  /** The keyword arguments of `Figure(...)`: None where an argument was not passed. */
  datatype Kwargs = Kwargs(
    xlabel: Option<string>, ylabel: Option<string>, xticks: Option<seq<Tick>>,
    yticks: Option<seq<Tick>>, trace: Option<Series>, title: Option<string>)

  /** The layout of one axis of the plotted chart. */
  datatype Axis = Axis(
    title: Option<string>, tickModeArray: bool, tickVals: seq<real>, tickText: seq<string>, showTickLabels: bool)

  /** The plotted chart: its traces, its title and its two axes. */
  datatype Chart = Chart(traces: seq<Series>, title: Option<string>, xaxis: Axis, yaxis: Axis)

  /** A fresh chart: no trace, no title, no axis titles, tick labels hidden. */
  const BlankChart := Chart([], None, Axis(None, false, [], [], false), Axis(None, false, [], [], false))

  /** The tick positions, `[t[1] for t in ticks]`. */
  function TickVals(ticks: seq<Tick>): (r: seq<real>)
    ensures |r| == |ticks| && forall i :: 0 <= i < |r| ==> r[i] == ticks[i].pos
  {
    if ticks == [] then [] else [ticks[0].pos] + TickVals(ticks[1..])
  }

  /** The tick labels, `[t[0] for t in ticks]`. */
  function TickText(ticks: seq<Tick>): (r: seq<string>)
    ensures |r| == |ticks| && forall i :: 0 <= i < |r| ==> r[i] == ticks[i].text
  {
    if ticks == [] then [] else [ticks[0].text] + TickText(ticks[1..])
  }

  /** The axis layout after `update_layout` sets its ticks from `ticks` and shows the labels. */
  function WithTicks(a: Axis, ticks: seq<Tick>): Axis {
    a.(tickModeArray := true, tickVals := TickVals(ticks), tickText := TickText(ticks), showTickLabels := true)
  }

  /** The effect on the chart of the `add_*` method for property `p`. */
  function Apply(p: Prop, props: Properties, c: Chart): Chart {
    match p
    case Trace => c.(traces := c.traces + [props.trace])
    case XLabel => c.(xaxis := c.xaxis.(title := Some(props.xlabel)))
    case YLabel => c.(yaxis := c.yaxis.(title := Some(props.ylabel)))
    case XTicks => c.(xaxis := WithTicks(c.xaxis, props.xticks))
    case YTicks => c.(yaxis := WithTicks(c.yaxis, props.yticks))
    case Title => c.(title := Some(props.title))
  }

  /** Whether property `p` shows in the chart. */
  predicate Applied(c: Chart, p: Prop) {
    match p
    case Trace => c.traces != []
    case XLabel => c.xaxis.title.Some?
    case YLabel => c.yaxis.title.Some?
    case XTicks => c.xaxis.showTickLabels
    case YTicks => c.yaxis.showTickLabels
    case Title => c.title.Some?
  }

  /** Each step shows its own property and leaves whether any other shows as it was. */
  lemma ApplyShowsOnlyItsProperty(p: Prop, props: Properties, c: Chart, q: Prop)
    ensures Applied(Apply(p, props, c), q) <==> Applied(c, q) || q == p
  {
  }

  /** The order in which properties are revealed. */
  const RevealOrder := [Trace, XLabel, YLabel, XTicks, YTicks, Title]

  /** The chart after the first `k` reveal steps, starting from a blank chart. */
  function Revealed(props: Properties, k: nat): Chart
    requires k <= |RevealOrder|
  {
    if k == 0 then BlankChart else Apply(RevealOrder[k - 1], props, Revealed(props, k - 1))
  }

  /** The position of each property in the reveal order. */
  function Position(p: Prop): (i: nat)
    ensures i < |RevealOrder| && RevealOrder[i] == p
  {
    match p
    case Trace => 0
    case XLabel => 1
    case YLabel => 2
    case XTicks => 3
    case YTicks => 4
    case Title => 5
  }

  /** The chart after `k` steps written out property by property. */
  function ExpectedChart(props: Properties, k: nat): Chart {
    var x := Axis(if k >= 2 then Some(props.xlabel) else None, k >= 4,
                  if k >= 4 then TickVals(props.xticks) else [], if k >= 4 then TickText(props.xticks) else [], k >= 4);
    var y := Axis(if k >= 3 then Some(props.ylabel) else None, k >= 5,
                  if k >= 5 then TickVals(props.yticks) else [], if k >= 5 then TickText(props.yticks) else [], k >= 5);
    Chart(if k >= 1 then [props.trace] else [], if k >= 6 then Some(props.title) else None, x, y)
  }

  /**
   * After k reveals the chart holds the trace once, the figure's own labels,
   * ticks and title for exactly the steps taken, and the blank values for
   * the rest.
   */
  lemma {:induction false} RevealedIsExpected(props: Properties, k: nat)
    requires k <= |RevealOrder|
    ensures Revealed(props, k) == ExpectedChart(props, k)
  {
    if k > 0 {
      RevealedIsExpected(props, k - 1);
      StepExtendsExpected(props, k);
    }
  }

  /** Step k of the reveal order turns the chart expected after k - 1 steps into the one expected after k. */
  lemma StepExtendsExpected(props: Properties, k: nat)
    requires 1 <= k <= |RevealOrder|
    ensures Apply(RevealOrder[k - 1], props, ExpectedChart(props, k - 1)) == ExpectedChart(props, k)
  {
    // A case split on k: each step is checked against its own concrete closed form.
    match k
    case 1 => assert ExpectedChart(props, 0) == BlankChart;
    case 2 =>
    case 3 =>
    case 4 =>
    case 5 =>
    case 6 =>
  }

  /** After k reveals exactly the first k properties of the reveal order show. */
  lemma {:induction false} RevealedShowsPrefix(props: Properties, k: nat, p: Prop)
    requires k <= |RevealOrder|
    ensures Applied(Revealed(props, k), p) <==> Position(p) < k
  {
    RevealedIsExpected(props, k);
  }

  /**
   * Tick labels stay hidden until their step; from then on the axis shows
   * the tick positions and labels of the figure's ticks, in order.
   */
  lemma {:induction false} RevealedTicks(props: Properties, k: nat)
    requires k <= |RevealOrder|
    ensures var c := Revealed(props, k);
      && (c.xaxis.showTickLabels <==> k >= 4)
      && (k >= 4 ==>
            && |c.xaxis.tickVals| == |c.xaxis.tickText| == |props.xticks|
            && forall i :: 0 <= i < |props.xticks| ==>
                 c.xaxis.tickVals[i] == props.xticks[i].pos && c.xaxis.tickText[i] == props.xticks[i].text)
      && (c.yaxis.showTickLabels <==> k >= 5)
      && (k >= 5 ==>
            && |c.yaxis.tickVals| == |c.yaxis.tickText| == |props.yticks|
            && forall i :: 0 <= i < |props.yticks| ==>
                 c.yaxis.tickVals[i] == props.yticks[i].pos && c.yaxis.tickText[i] == props.yticks[i].text)
  {
    RevealedIsExpected(props, k);
  }

  /**
   * A figure: the properties it was built with (never changed afterwards)
   * and the chart that the `add_*` methods update in place.
   */
  class Figure {
    const props: Properties
    var chart: Chart

    /** `Figure(**kwargs)`: every missing property takes its default; tick labels start hidden. */
    constructor (kwargs: Kwargs)
      ensures props.xlabel == kwargs.xlabel.GetOr(Defaults.xlabel)
      ensures props.ylabel == kwargs.ylabel.GetOr(Defaults.ylabel)
      ensures props.xticks == kwargs.xticks.GetOr(Defaults.xticks)
      ensures props.yticks == kwargs.yticks.GetOr(Defaults.yticks)
      ensures props.trace == kwargs.trace.GetOr(Defaults.trace)
      ensures props.title == kwargs.title.GetOr(Defaults.title)
      ensures chart == BlankChart
    {
      props := Properties(
        kwargs.xlabel.GetOr(Defaults.xlabel), kwargs.ylabel.GetOr(Defaults.ylabel),
        kwargs.xticks.GetOr(Defaults.xticks), kwargs.yticks.GetOr(Defaults.yticks),
        kwargs.trace.GetOr(Defaults.trace), kwargs.title.GetOr(Defaults.title));
      chart := BlankChart;
    }

    /** `deepcopy(source)`: a new figure with the same properties and chart. */
    constructor Copy(source: Figure)
      ensures props == source.props && chart == source.chart
    {
      props := source.props;
      chart := source.chart;
    }

    method AddTitle()
      modifies this
      ensures chart == Apply(Title, props, old(chart))
    {
      chart := chart.(title := Some(props.title));
    }

    method AddTrace()
      modifies this
      ensures chart == Apply(Trace, props, old(chart))
    {
      chart := chart.(traces := chart.traces + [props.trace]);
    }

    method AddXLabel()
      modifies this
      ensures chart == Apply(XLabel, props, old(chart))
    {
      chart := chart.(xaxis := chart.xaxis.(title := Some(props.xlabel)));
    }

    method AddYLabel()
      modifies this
      ensures chart == Apply(YLabel, props, old(chart))
    {
      chart := chart.(yaxis := chart.yaxis.(title := Some(props.ylabel)));
    }

    method AddXTicks()
      modifies this
      ensures chart == Apply(XTicks, props, old(chart))
    {
      chart := chart.(xaxis := WithTicks(chart.xaxis, props.xticks));
    }

    method AddYTicks()
      modifies this
      ensures chart == Apply(YTicks, props, old(chart))
    {
      chart := chart.(yaxis := WithTicks(chart.yaxis, props.yticks));
    }
  }

  /** The arguments of the three figures of FIGURES. */
  const FigureArgs: seq<Kwargs> := [
    Kwargs(
      Some("Bank"), Some("DKK"),
      Some([Tick("Danske Bank", 0.0), Tick("Sydbank", 1.0), Tick("Nordea", 2.0),
            Tick("Vestjysk Bank", 3.0), Tick("Lunar", 4.0)]),
      Some([Tick("0", 0.0), Tick("2500", 2500.0), Tick("5000", 5000.0)]),
      Some(Series(Bar, [0.0, 1.0, 2.0, 3.0, 4.0], [4000.0, 3895.0, 4800.0, 5000.0, 0.0])),
      Some("Business Account Origination Fee")),
    Kwargs(
      Some("Time"), Some("Percentage of Questioned (%)"),
      Some([Tick("Juni '21", 0.0), Tick("Sep '21", 1.0), Tick("Dec '21", 2.0), Tick("Mar '22", 3.0)]),
      Some([Tick("1%", 1.0), Tick("2%", 2.0), Tick("3%", 3.0), Tick("4%", 4.0)]),
      Some(Series(Scatter, [0.0, 1.0, 2.0, 3.0], [1.2, 1.75, 2.25, 3.5])),
      Some("Organic Knowledge of Lunar Bank (Voxmeter)")),
    Kwargs(
      Some("Country"), Some("Count"),
      Some([Tick("Denmark", 0.0), Tick("Sweden", 1.0)]),
      Some([Tick("0", 0.0), Tick("1", 1.0), Tick("2", 2.0), Tick("3", 3.0), Tick("4", 4.0), Tick("5", 5.0),
            Tick("6", 6.0), Tick("7", 7.0), Tick("8", 8.0), Tick("9", 9.0), Tick("10", 10.0), Tick("11", 11.0)]),
      Some(Series(Bar, [0.0, 1.0], [7.0, 11.0])),
      Some("Win Record in Dano-Swedish Wars since 1523"))
  ]

  /** FIGURES: the template figures, built once, all with blank charts. */
  method MakeFigures() returns (figures: seq<Figure>)
    ensures |figures| == |FigureArgs|
    ensures forall i :: 0 <= i < |figures| ==> fresh(figures[i]) && figures[i].chart == BlankChart
    ensures forall i :: 0 <= i < |figures| ==>
      figures[i].props == Properties(
        FigureArgs[i].xlabel.value, FigureArgs[i].ylabel.value, FigureArgs[i].xticks.value,
        FigureArgs[i].yticks.value, FigureArgs[i].trace.value, FigureArgs[i].title.value)
  {
    var f0 := new Figure(FigureArgs[0]);
    var f1 := new Figure(FigureArgs[1]);
    var f2 := new Figure(FigureArgs[2]);
    figures := [f0, f1, f2];
  }

  /** The session keys the game stores. */
  datatype SessionKey = FigureKey | RevealOrderKey | RevealIndexKey | NRevealsKey

  const AllKeys := {FigureKey, RevealOrderKey, RevealIndexKey, NRevealsKey}

  /** The buttons that can be pressed in one run of the page. */
  datatype Button = NoButton | RevealButton | ResetButton

  /**
   * One session of the game: which keys are present, the working copy of the
   * selected figure, the reveal order, the cursor and the number of steps.
   * A deleted key is modelled by the field's empty value.
   */
  class GraphGame {
    const templates: seq<Figure>
    var keys: set<SessionKey>
    var figure: Figure?
    var revealOrder: seq<Prop>
    var revealIndex: int
    var nReveals: int

    /** The state after a reset: no key present. */
    ghost predicate Cleared()
      reads this
    {
      keys == {} && figure == null && revealOrder == [] && revealIndex == 0 && nReveals == 0
    }

    /**
     * The state after a selection and any number of reveals: a private copy
     * of a figure, the six steps, a cursor within them, and a chart showing
     * exactly the first `revealIndex` steps.
     */
    ghost predicate Selected()
      reads this, figure
    {
      && keys == AllKeys && figure != null && figure !in templates
      && revealOrder == RevealOrder && nReveals == |revealOrder|
      && 0 <= revealIndex <= nReveals
      && figure.chart == Revealed(figure.props, revealIndex)
    }

    ghost predicate Valid()
      reads this, figure, templates
    {
      && (forall t :: t in templates ==> t.chart == BlankChart)
      && (Cleared() || Selected())
    }

    constructor (templates: seq<Figure>)
      requires forall t :: t in templates ==> t.chart == BlankChart
      ensures Valid() && Cleared() && this.templates == templates
    {
      this.templates := templates;
      keys := {};
      figure := null;
      revealOrder := [];
      revealIndex := 0;
      nReveals := 0;
    }

    /**
     * `update_figure_state(index)`: a deep copy of the chosen template, the
     * six steps in their fixed order, the cursor at 0.
     */
    method Select(index: nat)
      requires Valid() && index < |templates|
      modifies this
      ensures Valid() && Selected() && fresh(figure)
      ensures figure.props == templates[index].props && figure.chart == BlankChart
      ensures revealOrder == [Trace, XLabel, YLabel, XTicks, YTicks, Title]
      ensures revealIndex == 0 && nReveals == 6
    {
      figure := new Figure.Copy(templates[index]);
      revealOrder := RevealOrder;
      revealIndex := 0;
      nReveals := |revealOrder|;
      keys := AllKeys;
    }

    /**
     * The "Reveal property" branch: before the end, apply the step under the
     * cursor and advance it; at the end, change nothing and report it.
     * Templates are never touched.
     */
    method Reveal() returns (exhausted: bool)
      requires Valid() && Selected()
      modifies this`revealIndex, figure
      ensures Valid() && Selected() && figure == old(figure)
      ensures exhausted <==> old(revealIndex) >= nReveals
      ensures exhausted ==> revealIndex == old(revealIndex) && figure.chart == old(figure.chart)
      ensures !exhausted ==>
        && revealIndex == old(revealIndex) + 1
        && figure.chart == Apply(revealOrder[old(revealIndex)], figure.props, old(figure.chart))
      ensures forall t :: t in templates ==> t.chart == old(t.chart)
    {
      if revealIndex >= nReveals {
        exhausted := true;
      } else {
        exhausted := false;
        match revealOrder[revealIndex] {
          case Trace => figure.AddTrace();
          case XLabel => figure.AddXLabel();
          case YLabel => figure.AddYLabel();
          case XTicks => figure.AddXTicks();
          case YTicks => figure.AddYTicks();
          case Title => figure.AddTitle();
        }
        revealIndex := revealIndex + 1;
      }
    }

    /** `reset_state()`: delete every session key, one at a time. */
    method Reset()
      requires Valid()
      modifies this
      ensures Valid() && Cleared()
    {
      while keys != {}
        invariant forall t :: t in templates ==> t.chart == BlankChart
        invariant FigureKey !in keys ==> figure == null
        invariant RevealOrderKey !in keys ==> revealOrder == []
        invariant RevealIndexKey !in keys ==> revealIndex == 0
        invariant NRevealsKey !in keys ==> nReveals == 0
        decreases keys
      {
        var k :| k in keys;
        match k {
          case FigureKey => figure := null;
          case RevealOrderKey => revealOrder := [];
          case RevealIndexKey => revealIndex := 0;
          case NRevealsKey => nReveals := 0;
        }
        keys := keys - {k};
      }
    }

    /**
     * One run of the page. Changing the selected figure resets the session
     * first; a session without a figure then selects the chosen one; then
     * at most one button acts.
     */
    method Run(figureIndex: nat, selectionChanged: bool, button: Button) returns (exhausted: bool)
      requires Valid() && figureIndex < |templates|
      modifies this, figure
      ensures Valid()
      ensures button == ResetButton ==> Cleared()
      ensures button != ResetButton ==> Selected()
      ensures exhausted <==>
        button == RevealButton && !selectionChanged && old(keys) != {} && old(revealIndex) >= 6
      ensures exhausted ==> revealIndex == nReveals
      ensures button != ResetButton && (selectionChanged || old(keys) == {}) ==>
        && fresh(figure) && figure.props == templates[figureIndex].props
        && revealIndex == (if button == RevealButton then 1 else 0)
      ensures button != ResetButton && !selectionChanged && old(keys) != {} ==>
        && figure == old(figure)
        && revealIndex == (if button == RevealButton && old(revealIndex) < 6 then old(revealIndex) + 1 else old(revealIndex))
    {
      if selectionChanged {
        Reset();
      }
      if keys == {} {
        Select(figureIndex);
      }
      exhausted := false;
      if button == RevealButton {
        exhausted := Reveal();
      } else if button == ResetButton {
        Reset();
      }
    }
  }
}

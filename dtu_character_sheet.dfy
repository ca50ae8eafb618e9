/**
 * The character sheet screen of character_sheet.cpp: six attribute
 * spinner boxes bounded to 0..5 sharing one pool of attribute points, the
 * stats derived from introspection, fitness and agility, a reset button,
 * and the buttons between the sheet's two pages. Widget IDs are the order
 * of the widgets in the file: the spinners 0..5, their help texts 6..11,
 * reset 12, next page 13 and previous page 14.
 */
module DtuCharacterSheet {
  import opened Machine
  import opened DtuUi

  datatype Sheet = Sheet(
    attrPts: u8,
    empathy: u8, linguistics: u8, reasoning: u8, introspection: u8, fitness: u8, agility: u8,
    psychePts: u8, healthPts: u8, actionPts: u8, initiative: u8)

  datatype Attribute = Empathy | Linguistics | Reasoning | Introspection | Fitness | Agility

  const ATTR_MIN: u8 := 0
  const ATTR_MAX: u8 := 5
  const RESET_ID: int := 12
  const NEXT_PAGE_ID: int := 13
  const PREV_PAGE_ID: int := 14

  function WidgetId(a: Attribute): (r: int)
    ensures 0 <= r < 6
  {
    match a
    case Empathy => 0
    case Linguistics => 1
    case Reasoning => 2
    case Introspection => 3
    case Fitness => 4
    case Agility => 5
  }

  function Get(cs: Sheet, a: Attribute): u8
  {
    match a
    case Empathy => cs.empathy
    case Linguistics => cs.linguistics
    case Reasoning => cs.reasoning
    case Introspection => cs.introspection
    case Fitness => cs.fitness
    case Agility => cs.agility
  }

  function Set(cs: Sheet, a: Attribute, v: u8): Sheet
  {
    match a
    case Empathy => cs.(empathy := v)
    case Linguistics => cs.(linguistics := v)
    case Reasoning => cs.(reasoning := v)
    case Introspection => cs.(introspection := v)
    case Fitness => cs.(fitness := v)
    case Agility => cs.(agility := v)
  }

  /** The initiative: half the sum of fitness and agility, rounded up. */
  function Initiative(cs: Sheet): u8
  {
    Wrap8((cs.fitness + cs.agility + 1) / 2)
  }

  /** The stats recomputed when an attribute's spinner reports a click. */
  function Derive(cs: Sheet, a: Attribute): Sheet
  {
    match a
    case Introspection => cs.(psychePts := Wrap8(2 * (cs.introspection + 1)))
    case Fitness => cs.(healthPts := Wrap8(2 * (cs.fitness + 1)), initiative := Initiative(cs))
    case Agility => cs.(actionPts := Wrap8(2 * (cs.agility + 1)), initiative := Initiative(cs))
    case _ => cs
  }

  function AttributeSum(cs: Sheet): nat
  {
    cs.empathy + cs.linguistics + cs.reasoning + cs.introspection + cs.fitness + cs.agility
  }

  /** The derived stats agree with the attributes they come from. */
  predicate Derived(cs: Sheet)
  {
    && cs.psychePts == 2 * (cs.introspection + 1)
    && cs.healthPts == 2 * (cs.fitness + 1)
    && cs.actionPts == 2 * (cs.agility + 1)
    && cs.initiative == (cs.fitness + cs.agility + 1) / 2
  }

  /** Every attribute in 0..5, the pool and the attributes adding up to
      `total`, and the derived stats up to date. */
  predicate SheetInv(cs: Sheet, total: nat)
  {
    && cs.empathy <= ATTR_MAX && cs.linguistics <= ATTR_MAX && cs.reasoning <= ATTR_MAX
    && cs.introspection <= ATTR_MAX && cs.fitness <= ATTR_MAX && cs.agility <= ATTR_MAX
    && cs.attrPts + AttributeSum(cs) == total
    && Derived(cs)
  }

  /** One frame's input: the left button and, by widget ID, where the
      cursor lies relative to each widget. */
  datatype Input = Input(leftDown: bool, regions: seq<Region>)

  function RegionAt(input: Input, id: int): Region
  {
    if 0 <= id < |input.regions| then input.regions[id] else Outside
  }

  /** One attribute's spinner box over the shared pool, then its derived
      stats on a click. */
  function SpinAttribute(cs: Sheet, f: Focus, input: Input, a: Attribute): (r: (Sheet, Focus))
  {
    var (clicked, g, p, v, _) :=
      Spinner(WidgetId(a), f, input.leftDown, RegionAt(input, WidgetId(a)), cs.attrPts, Get(cs, a), ATTR_MIN, ATTR_MAX);
    var moved := Set(cs, a, v).(attrPts := p);
    (if clicked then Derive(moved, a) else moved, g)
  }

  /** The sheet screen: the sheet, the widget focus and the page shown. */
  datatype Screen = Screen(sheet: Sheet, focus: Focus, page: u8)

  /** The six spinners of sheet_page_0, in order. */
  function SpinAll(cs: Sheet, f: Focus, input: Input): (r: (Sheet, Focus))
  {
    var (c1, f1) := SpinAttribute(cs, f, input, Empathy);
    var (c2, f2) := SpinAttribute(c1, f1, input, Linguistics);
    var (c3, f3) := SpinAttribute(c2, f2, input, Reasoning);
    var (c4, f4) := SpinAttribute(c3, f3, input, Introspection);
    var (c5, f5) := SpinAttribute(c4, f4, input, Fitness);
    SpinAttribute(c5, f5, input, Agility)
  }

  /** sheet_page_0: the six spinners in order, reset, then next page,
      which moves to page 1 only with every point spent. */
  function PageZero(s: Screen, input: Input, defaults: Sheet): (r: Screen)
  {
    var (c6, f6) := SpinAll(s.sheet, s.focus, input);
    var (reset, f7, _) := Button(RESET_ID, f6, input.leftDown, RegionAt(input, RESET_ID) != Outside);
    var c7 := if reset then defaults else c6;
    var (next, f8, _) := Button(NEXT_PAGE_ID, f7, input.leftDown, RegionAt(input, NEXT_PAGE_ID) != Outside);
    Screen(c7, f8, if next && c7.attrPts == 0 then 1 else s.page)
  }

  /** sheet_page_1: only the previous-page button, which shows page 0. */
  function PageOne(s: Screen, input: Input): (r: Screen)
  {
    var (prev, f, _) := Button(PREV_PAGE_ID, s.focus, input.leftDown, RegionAt(input, PREV_PAGE_ID) != Outside);
    Screen(s.sheet, f, if prev then 0 else s.page)
  }

  /** update: page 0 or page 1; any other page does nothing. */
  function Update(s: Screen, input: Input, defaults: Sheet): (r: Screen)
  {
    if s.page == 0 then PageZero(s, input, defaults)
    else if s.page == 1 then PageOne(s, input)
    else s
  }

  /** Moving one attribute to `v` against the pool at `p`, with their sum
      kept, keeps the sheet invariant when an unclicked spinner moved
      nothing and a clicked one has its derived stats recomputed. */
  lemma TradeKeepsInv(cs: Sheet, a: Attribute, p: u8, v: u8, clicked: bool, total: nat)
    requires SheetInv(cs, total)
    requires v <= ATTR_MAX && v + p == Get(cs, a) + cs.attrPts
    requires !clicked ==> v == Get(cs, a)
    ensures var moved := Set(cs, a, v).(attrPts := p);
      SheetInv(if clicked then Derive(moved, a) else moved, total)
  {
    if a.Introspection? || a.Fitness? || a.Agility? {
      DerivingTradeKeepsInv(cs, a, p, v, clicked, total);
    } else {
      PlainTradeKeepsInv(cs, a, p, v, clicked, total);
    }
  }

  /** `TradeKeepsInv` for an attribute no stat is derived from. */
  lemma PlainTradeKeepsInv(cs: Sheet, a: Attribute, p: u8, v: u8, clicked: bool, total: nat)
    requires SheetInv(cs, total) && (a.Empathy? || a.Linguistics? || a.Reasoning?)
    requires v <= ATTR_MAX && v + p == Get(cs, a) + cs.attrPts
    ensures var moved := Set(cs, a, v).(attrPts := p);
      SheetInv(if clicked then Derive(moved, a) else moved, total)
  {
    var moved := Set(cs, a, v).(attrPts := p);
    assert Derive(moved, a) == moved;
  }

  /** `TradeKeepsInv` for an attribute a stat is derived from. */
  lemma DerivingTradeKeepsInv(cs: Sheet, a: Attribute, p: u8, v: u8, clicked: bool, total: nat)
    requires SheetInv(cs, total) && (a.Introspection? || a.Fitness? || a.Agility?)
    requires v <= ATTR_MAX && v + p == Get(cs, a) + cs.attrPts
    requires !clicked ==> v == Get(cs, a)
    ensures var moved := Set(cs, a, v).(attrPts := p);
      SheetInv(if clicked then Derive(moved, a) else moved, total)
  {
    if !clicked {
      assert Set(cs, a, v).(attrPts := p) == cs;
    } else if a.Introspection? {
      Wrap8Fits(2 * (v + 1));
    } else {
      FitnessOrAgilityTradeKeepsInv(cs, a, p, v, total);
    }
  }

  /** A clicked trade of fitness or agility recomputes two stats and the initiative. */
  lemma FitnessOrAgilityTradeKeepsInv(cs: Sheet, a: Attribute, p: u8, v: u8, total: nat)
    requires SheetInv(cs, total) && (a.Fitness? || a.Agility?)
    requires v <= ATTR_MAX && v + p == Get(cs, a) + cs.attrPts
    ensures SheetInv(Derive(Set(cs, a, v).(attrPts := p), a), total)
  {
    Wrap8Fits(2 * (v + 1));
    if a.Fitness? {
      Wrap8Fits((v + cs.agility + 1) / 2);
    } else {
      Wrap8Fits((cs.fitness + v + 1) / 2);
    }
  }

  /** A spinner keeps the sheet invariant: the value and pool trade one
      point, the bounds hold, and a changed attribute was clicked, so its
      derived stats are recomputed. */
  lemma SpinAttributeKeepsInv(cs: Sheet, f: Focus, input: Input, a: Attribute, total: nat)
    requires SheetInv(cs, total) && total < 255
    ensures SheetInv(SpinAttribute(cs, f, input, a).0, total)
  {
    var r := Spinner(WidgetId(a), f, input.leftDown, RegionAt(input, WidgetId(a)), cs.attrPts, Get(cs, a), ATTR_MIN, ATTR_MAX);
    SpinnerMovesOneUnit(WidgetId(a), f, input.leftDown, RegionAt(input, WidgetId(a)), cs.attrPts, Get(cs, a), ATTR_MIN, ATTR_MAX);
    assert cs.attrPts < 255;
    TradeKeepsInv(cs, a, r.2, r.3, r.0, total);
  }

  /** Page 0 keeps the sheet invariant when the default sheet satisfies it
      too, and moves to page 1 only with no point left to spend. */
  lemma PageZeroKeepsInv(s: Screen, input: Input, defaults: Sheet, total: nat)
    requires SheetInv(s.sheet, total) && SheetInv(defaults, total) && total < 255
    ensures SheetInv(PageZero(s, input, defaults).sheet, total)
    ensures PageZero(s, input, defaults).page != s.page ==>
      PageZero(s, input, defaults).page == 1 && PageZero(s, input, defaults).sheet.attrPts == 0
  {
    var (c1, f1) := SpinAttribute(s.sheet, s.focus, input, Empathy);
    SpinAttributeKeepsInv(s.sheet, s.focus, input, Empathy, total);
    var (c2, f2) := SpinAttribute(c1, f1, input, Linguistics);
    SpinAttributeKeepsInv(c1, f1, input, Linguistics, total);
    var (c3, f3) := SpinAttribute(c2, f2, input, Reasoning);
    SpinAttributeKeepsInv(c2, f2, input, Reasoning, total);
    var (c4, f4) := SpinAttribute(c3, f3, input, Introspection);
    SpinAttributeKeepsInv(c3, f3, input, Introspection, total);
    var (c5, f5) := SpinAttribute(c4, f4, input, Fitness);
    SpinAttributeKeepsInv(c4, f4, input, Fitness, total);
    SpinAttributeKeepsInv(c5, f5, input, Agility, total);
  }

  /** update keeps the sheet invariant, stays on pages 0 and 1, moves to
      page 1 only with every point spent, and on any other page changes
      nothing. */
  lemma UpdateKeepsInv(s: Screen, input: Input, defaults: Sheet, total: nat)
    requires SheetInv(s.sheet, total) && SheetInv(defaults, total) && total < 255
    ensures var r := Update(s, input, defaults);
      && SheetInv(r.sheet, total)
      && (s.page <= 1 ==> r.page <= 1)
      && (s.page == 0 && r.page == 1 ==> r.sheet.attrPts == 0)
      && (s.page > 1 ==> r == s)
  {
    if s.page == 0 {
      PageZeroKeepsInv(s, input, defaults, total);
    }
  }
}

/** The character sheet screen as the object whose sheet, page and widget
    focus the frame's widgets update. */
module DtuCharacterSheetScreen {
  import opened Machine
  import opened DtuUi
  import opened DtuUiContext
  import opened DtuCharacterSheet

  class CharacterSheet {
    var sheet: Sheet
    var page: u8
    const ui: Ui

    function Model(): Screen
      reads this, ui
    {
      Screen(sheet, ui.Model(), page)
    }

    /** The statics of update: the given default sheet, page 0, no focus. */
    constructor (defaults: Sheet)
      ensures Model() == Screen(defaults, Focus(NO_WIDGET, NO_WIDGET), 0)
      ensures fresh(ui)
    {
      sheet := defaults;
      page := 0;
      ui := new Ui();
    }

    method SpinAttribute(a: Attribute, input: Input)
      modifies this, ui
      ensures (sheet, ui.Model()) == DtuCharacterSheet.SpinAttribute(old(sheet), old(ui.Model()), input, a)
      ensures page == old(page)
    {
      var clicked, p, v, _ := ui.SpinnerBox(WidgetId(a), input.leftDown, RegionAt(input, WidgetId(a)),
                                            sheet.attrPts, Get(sheet, a), ATTR_MIN, ATTR_MAX);
      sheet := Set(sheet, a, v).(attrPts := p);
      if clicked {
        match a
        case Introspection =>
          sheet := sheet.(psychePts := Wrap8(2 * (sheet.introspection + 1)));
        case Fitness =>
          sheet := sheet.(healthPts := Wrap8(2 * (sheet.fitness + 1)), initiative := Initiative(sheet));
        case Agility =>
          sheet := sheet.(actionPts := Wrap8(2 * (sheet.agility + 1)), initiative := Initiative(sheet));
        case _ =>
      }
    }

    method SheetPageZero(input: Input, defaults: Sheet)
      modifies this, ui
      ensures Model() == PageZero(old(Model()), input, defaults)
    {
      SpinAll(input);
      var reset, _ := ui.Button(RESET_ID, input.leftDown, RegionAt(input, RESET_ID) != Outside);
      if reset {
        sheet := defaults;
      }
      var next, _ := ui.Button(NEXT_PAGE_ID, input.leftDown, RegionAt(input, NEXT_PAGE_ID) != Outside);
      if next && sheet.attrPts == 0 {
        page := 1;
      }
    }

    method SpinAll(input: Input)
      modifies this, ui
      ensures (sheet, ui.Model()) == DtuCharacterSheet.SpinAll(old(sheet), old(ui.Model()), input)
      ensures page == old(page)
    {
      SpinAttribute(Empathy, input);
      SpinAttribute(Linguistics, input);
      SpinAttribute(Reasoning, input);
      SpinAttribute(Introspection, input);
      SpinAttribute(Fitness, input);
      SpinAttribute(Agility, input);
    }

    method SheetPageOne(input: Input)
      modifies this, ui
      ensures Model() == PageOne(old(Model()), input)
    {
      var prev, _ := ui.Button(PREV_PAGE_ID, input.leftDown, RegionAt(input, PREV_PAGE_ID) != Outside);
      if prev {
        page := 0;
      }
    }

    method Update(input: Input, defaults: Sheet)
      modifies this, ui
      ensures Model() == DtuCharacterSheet.Update(old(Model()), input, defaults)
    {
      if page == 0 {
        SheetPageZero(input, defaults);
      } else if page == 1 {
        SheetPageOne(input);
      }
    }
  }
}

/**
 * The immediate-mode widgets of ui.cpp: a widget becomes hot under the
 * cursor, active when pressed while hot, and reports a click when the
 * button is released while it is active and hot. A spinner box moves one
 * unit between its value and a shared pool on a click of its up or down
 * button. The state of the left mouse button and where the cursor lies
 * relative to the widget are inputs of each frame.
 */
module DtuUi {
  import opened Machine

  /** The `active` and `hot` value that means no widget. */
  const NO_WIDGET: int := -1

  datatype Focus = Focus(active: int, hot: int)

  /** Where the cursor lies relative to a spinner box. The up and down
      buttons lie inside the box and apart from each other. */
  datatype Region = Outside | Body | UpButton | DownButton

  /** The skin a spinner box is drawn with. */
  datatype Skin = Neutral | Pressed | UpHeld | DownHeld

  /** The active/hot rules shared by the spinner box and both buttons. */
  function Interact(id: int, f: Focus, leftDown: bool, inWidget: bool): (r: (bool, Focus))
  {
    var (clicked, active) :=
      if id == f.active then
        (if !leftDown then (id == f.hot, NO_WIDGET) else (false, f.active))
      else if id == f.hot && leftDown && inWidget then (false, id)
      else (false, f.active);
    (clicked, Focus(active, if inWidget && id != active then id else f.hot))
  }

  /** A click is reported exactly on a release while the widget is active
      and hot; releasing an active widget frees it; pressing inside a hot
      widget activates it; a widget changes `active` only to itself or to
      none; and a widget under the cursor that is not active becomes hot. */
  lemma InteractRules(id: int, f: Focus, leftDown: bool, inWidget: bool)
    requires id != NO_WIDGET
    ensures var (clicked, g) := Interact(id, f, leftDown, inWidget);
      && (clicked <==> f.active == id && f.hot == id && !leftDown)
      && (f.active == id && !leftDown ==> g.active == NO_WIDGET)
      && (f.active != id && f.hot == id && leftDown && inWidget ==> g.active == id)
      && (g.active != f.active ==> g.active == id || g.active == NO_WIDGET)
      && (g.hot != f.hot ==> g.hot == id && inWidget && g.active != id)
      && (inWidget && g.active != id ==> g.hot == id)
  {
  }

  /** Hovering, pressing and releasing over a widget, starting from no
      focus, makes it hot, then active, then reports the click and frees
      it. */
  lemma HoverPressReleaseClicks(id: int)
    requires id != NO_WIDGET
    ensures var (c1, f1) := Interact(id, Focus(NO_WIDGET, NO_WIDGET), false, true);
      var (c2, f2) := Interact(id, f1, true, true);
      var (c3, f3) := Interact(id, f2, false, true);
      && !c1 && f1 == Focus(NO_WIDGET, id)
      && !c2 && f2 == Focus(id, id)
      && c3 && f3 == Focus(NO_WIDGET, id)
  {
  }

  /** The value and pool after a spinner box's click rules. */
  function SpinValues(clicked: bool, region: Region, pool: u8, value: u8, min: u8, max: u8): (r: (u8, u8))
  {
    if clicked && region == UpButton && value + 1 <= max && pool != 0 then (pool - 1, value + 1)
    else if clicked && region == DownButton && value - 1 >= min then (Wrap8(pool + 1), value - 1)
    else (pool, value)
  }

  /** spinner_box: the widget rules over the whole box, then the click
      rules, then the skin: the held button's while active. */
  function Spinner(id: int, f: Focus, leftDown: bool, region: Region, pool: u8, value: u8, min: u8, max: u8)
    : (r: (bool, Focus, u8, u8, Skin))
  {
    var (clicked, g) := Interact(id, f, leftDown, region != Outside);
    var (p, v) := SpinValues(clicked, region, pool, value, min, max);
    var skin := if g.active == id then
        (if region == UpButton then UpHeld else if region == DownButton then DownHeld else Neutral)
      else Neutral;
    (clicked, g, p, v, skin)
  }

  /** The value moves by one only on a click of the matching button: up
      only while the pool is not empty and below `max`, down only above
      `min`. Value plus pool is unchanged, except that a down-click with
      the pool at 255 wraps the pool to 0. A value in [min, max] stays
      there. */
  lemma SpinnerMovesOneUnit(id: int, f: Focus, leftDown: bool, region: Region, pool: u8, value: u8, min: u8, max: u8)
    ensures var (clicked, g, p, v, skin) := Spinner(id, f, leftDown, region, pool, value, min, max);
      && (v == value + 1 ==> clicked && region == UpButton && pool > 0 && v <= max && p == pool - 1)
      && (v == value - 1 ==> clicked && region == DownButton && v >= min && p == Wrap8(pool + 1))
      && (v == value || v == value + 1 || v == value - 1)
      && (v == value ==> p == pool)
      && (v + p == value + pool || (pool == 255 && v == value - 1 && p == 0))
      && (min <= value <= max ==> min <= v <= max)
  {
    var (clicked, g) := Interact(id, f, leftDown, region != Outside);
    if clicked && region == DownButton && !(value + 1 <= max && pool != 0 && region == UpButton) && value - 1 >= min {
      if pool < 255 {
        assert Wrap8(pool + 1) == pool + 1;
      }
    }
  }

  /** button (both overloads): the widget rules, and the pressed skin while
      active. */
  function Button(id: int, f: Focus, leftDown: bool, inWidget: bool): (r: (bool, Focus, Skin))
  {
    var (clicked, g) := Interact(id, f, leftDown, inWidget);
    (clicked, g, if g.active == id then Pressed else Neutral)
  }

  /** text_on_hot: the text is appended, and true returned, iff the target
      is the hot widget. */
  function TextOnHot(target: int, hot: int, texts: seq<string>, text: string): (r: (bool, seq<string>))
    ensures r.0 <==> target == hot
    ensures r.1 == if target == hot then texts + [text] else texts
  {
    if target == hot then (true, texts + [text]) else (false, texts)
  }

  /** A run of text_on_hot calls, each a target widget and a text, in order. */
  function TextsOnHot(hot: int, texts: seq<string>, calls: seq<(int, string)>): seq<string>
  {
    if |calls| == 0 then texts
    else
      var last := calls[|calls| - 1];
      TextOnHot(last.0, hot, TextsOnHot(hot, texts, calls[..|calls| - 1]), last.1).1
  }

  /** The texts of the calls aimed at the hot widget, in order. */
  function HotTexts(hot: int, calls: seq<(int, string)>): seq<string>
  {
    if |calls| == 0 then []
    else
      var last := calls[|calls| - 1];
      HotTexts(hot, calls[..|calls| - 1]) + (if last.0 == hot then [last.1] else [])
  }

  /** A run of text_on_hot calls appends exactly the texts aimed at the hot
      widget, in call order, and keeps the texts already there. */
  lemma {:induction false} TextsOnHotAppendsHotTexts(hot: int, texts: seq<string>, calls: seq<(int, string)>)
    ensures TextsOnHot(hot, texts, calls) == texts + HotTexts(hot, calls)
  {
    if |calls| > 0 {
      var init := calls[..|calls| - 1];
      var last := calls[|calls| - 1];
      TextsOnHotAppendsHotTexts(hot, texts, init);
      if last.0 == hot {
        assert texts + HotTexts(hot, init) + [last.1] == texts + (HotTexts(hot, init) + [last.1]);
      } else {
        assert HotTexts(hot, init) + [] == HotTexts(hot, init);
      }
    }
  }
}

/** The widget focus as the object the widgets update through references. */
module DtuUiContext {
  import opened Machine
  import opened DtuUi

  class Ui {
    var active: int
    var hot: int

    function Model(): Focus
      reads this
    {
      Focus(active, hot)
    }

    constructor ()
      ensures Model() == Focus(NO_WIDGET, NO_WIDGET)
    {
      active := NO_WIDGET;
      hot := NO_WIDGET;
    }

    method Interact(id: int, leftDown: bool, inWidget: bool) returns (clicked: bool)
      modifies this
      ensures (clicked, Model()) == DtuUi.Interact(id, old(Model()), leftDown, inWidget)
    {
      clicked := false;
      if id == active {
        if !leftDown {
          if id == hot {
            clicked := true;
          }
          active := NO_WIDGET;
        }
      } else if id == hot {
        if leftDown && inWidget {
          active := id;
        }
      }
      if inWidget && id != active {
        hot := id;
      }
    }

    method SpinnerBox(id: int, leftDown: bool, region: Region, pool: u8, value: u8, min: u8, max: u8)
      returns (clicked: bool, newPool: u8, newValue: u8, skin: Skin)
      modifies this
      ensures (clicked, Model(), newPool, newValue, skin)
        == DtuUi.Spinner(id, old(Model()), leftDown, region, pool, value, min, max)
    {
      clicked := Interact(id, leftDown, region != Outside);
      newPool, newValue := pool, value;
      if clicked && region == UpButton && value + 1 <= max && pool != 0 {
        newValue := value + 1;
        newPool := pool - 1;
      } else if clicked && region == DownButton && value - 1 >= min {
        newValue := value - 1;
        newPool := Wrap8(pool + 1);
      }
      skin := Neutral;
      if id == active {
        if region == UpButton {
          skin := UpHeld;
        } else if region == DownButton {
          skin := DownHeld;
        }
      }
    }

    method Button(id: int, leftDown: bool, inWidget: bool) returns (clicked: bool, skin: Skin)
      modifies this
      ensures (clicked, Model(), skin) == DtuUi.Button(id, old(Model()), leftDown, inWidget)
    {
      clicked := Interact(id, leftDown, inWidget);
      skin := if id == active then Pressed else Neutral;
    }

    method TextOnHot(target: int, texts: seq<string>, text: string) returns (shown: bool, newTexts: seq<string>)
      ensures (shown, newTexts) == DtuUi.TextOnHot(target, hot, texts, text)
    {
      if target == hot {
        shown, newTexts := true, texts + [text];
      } else {
        shown, newTexts := false, texts;
      }
    }
  }
}

/**
 * The tool bar: three buttons, of which exactly one is shown active, and a
 * dispatch from the chosen tool to the callback its owner supplied.
 */
module ToolBar {

  datatype Tool = Pencil | Eraser | Backgrounds

  /** The callbacks the owner passes in, one per button. */
  datatype Callback = OnSelectPencil | OnSelectEraser | OnAddBackground

  /** The tools the bar renders buttons for. */
  const Tools: set<Tool> := {Pencil, Eraser, Backgrounds}

  /** Every tool the bar can be asked to select is one of its buttons. */
  lemma ToolsComplete(t: Tool)
    ensures t in Tools
  {
  }

  /** The active-tools record after a selection: the chosen tool on, the others off. */
  function OneHot(tool: Tool): (active: map<Tool, bool>)
    ensures active.Keys == Tools
    ensures forall t :: t in active ==> (active[t] <==> t == tool)
  {
    var none := map[Pencil := false, Eraser := false, Backgrounds := false];
    assert tool in none.Keys by { ToolsComplete(tool); }
    none[tool := true]
  }

  /** The tools shown active in a record. */
  function ActiveSet(active: map<Tool, bool>): set<Tool> {
    set t | t in active && active[t]
  }

  /** A selection leaves exactly one tool active, the chosen one. */
  lemma OneHotExactlyOne(tool: Tool)
    ensures ActiveSet(OneHot(tool)) == {tool}
    ensures |ActiveSet(OneHot(tool))| == 1
  {
    var active := OneHot(tool);
    forall t ensures t in ActiveSet(active) <==> t == tool {
      ToolsComplete(t);
    }
  }

  /** Different selections give different records: the record tells which tool was chosen. */
  lemma OneHotInjective(t: Tool, u: Tool)
    requires OneHot(t) == OneHot(u)
    ensures t == u
  {
    assert OneHot(t)[t];
  }

  /** The callback the switch dispatches to for each tool. */
  function CallbackFor(tool: Tool): Callback {
    match tool
    case Pencil => OnSelectPencil
    case Eraser => OnSelectEraser
    case Backgrounds => OnAddBackground
  }

  /** Each tool has its own callback, and every callback belongs to some tool. */
  lemma CallbackForBijective(t: Tool, u: Tool, c: Callback)
    ensures CallbackFor(t) == CallbackFor(u) ==> t == u
    ensures exists v :: CallbackFor(v) == c
  {
    match c
    case OnSelectPencil => assert CallbackFor(Pencil) == c;
    case OnSelectEraser => assert CallbackFor(Eraser) == c;
    case OnAddBackground => assert CallbackFor(Backgrounds) == c;
  }

  class ToolBarState {
    /** Which buttons are shown active. */
    var activeTools: map<Tool, bool>
    /** The callbacks invoked so far, oldest first. */
    var invoked: seq<Callback>

    /** Exactly one tool is active. */
    predicate OneActive()
      reads this
    {
      activeTools.Keys == Tools && |ActiveSet(activeTools)| == 1
    }

    /** Initially only the pencil is active. */
    constructor ()
      ensures activeTools == map[Pencil := true, Eraser := false, Backgrounds := false]
      ensures activeTools == OneHot(Pencil) && OneActive()
      ensures invoked == []
    {
      activeTools := map[Pencil := true, Eraser := false, Backgrounds := false];
      invoked := [];
      OneHotExactlyOne(Pencil);
    }

    /**
     * Select a tool: the record becomes the chosen tool alone, whatever it
     * was before, and exactly the matching callback is invoked once.
     */
    method HandleToolSelect(tool: Tool)
      modifies this
      ensures activeTools == OneHot(tool) && OneActive()
      ensures invoked == old(invoked) + [CallbackFor(tool)]
    {
      var newActiveTools := map[Pencil := false, Eraser := false, Backgrounds := false];
      newActiveTools := newActiveTools[tool := true];
      activeTools := newActiveTools;
      OneHotExactlyOne(tool);
      match tool
      case Pencil => invoked := invoked + [OnSelectPencil];
      case Eraser => invoked := invoked + [OnSelectEraser];
      case Backgrounds => invoked := invoked + [OnAddBackground];
    }
  }
}

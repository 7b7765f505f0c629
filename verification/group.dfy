/** Grouping containers: `Group`, a column of the caller's widgets under an optional
    title label, and `Tab`, one tab per widget. Both pass `disabled` (and `Group` also
    `visible`) on to every element. */
module Group {
  import opened Wrappers

  /** The state of an ipywidgets element that the containers touch. */
  class Widget {
    /** `w.name`, used as a default tab title. */
    const name: string
    /** The HTML of a label; empty for other widgets. */
    const html: string
    var disabled: bool
    var visible: bool

    constructor(name: string, disabled: bool, visible: bool)
      ensures this.name == name && html == "" && this.disabled == disabled && this.visible == visible
    {
      this.name, html := name, "";
      this.disabled, this.visible := disabled, visible;
    }

    /** A new `widgets.HTML` label: enabled and shown. */
    constructor Label(html: string)
      ensures name == "" && this.html == html && !disabled && visible
    {
      name, this.html := "", html;
      disabled, visible := false, true;
    }
  }

  /** Sets `.disabled` on every element; nothing else changes. */
  method DisableAll(ws: seq<Widget>, v: bool)
    modifies set w: Widget | w in ws
    ensures forall i :: 0 <= i < |ws| ==> ws[i].disabled == v
    ensures forall i :: 0 <= i < |ws| ==> ws[i].visible == old(ws[i].visible)
  {
    for i := 0 to |ws|
      invariant forall j :: 0 <= j < i ==> ws[j].disabled == v
      invariant forall j :: 0 <= j < |ws| ==> ws[j].visible == old(ws[j].visible)
    {
      ws[i].disabled := v;
    }
  }

  /** Sets `.visible` on every element; nothing else changes. */
  method ShowAll(ws: seq<Widget>, v: bool)
    modifies set w: Widget | w in ws
    ensures forall i :: 0 <= i < |ws| ==> ws[i].visible == v
    ensures forall i :: 0 <= i < |ws| ==> ws[i].disabled == old(ws[i].disabled)
  {
    for i := 0 to |ws|
      invariant forall j :: 0 <= j < i ==> ws[j].visible == v
      invariant forall j :: 0 <= j < |ws| ==> ws[j].disabled == old(ws[j].disabled)
    {
      ws[i].visible := v;
    }
  }

  const TitleStyle: string := "style='background-color: #DCDCDC; font-size: 150%; padding: 5px'"

  /** The HTML of the title bar: the name, with the description as a popover when
      there is one. */
  function TitleHtml(desc: string, name: string): string {
    var popover := if desc != "" then "data-toggle=\"popover\" title=\"" + desc + "\"" else "";
    "<p  " + popover + " " + TitleStyle + ">" + name + "</p>"
  }

  class Group {
    /** The elements shown, title label first when there is one. */
    var wlist: seq<Widget>
    /** The container's children as last assigned. */
    var children: seq<Widget>
    var name: string
    var desc: string
    const showName: bool
    var disabled: bool
    /** `None` until `visible` is first set (the getter raises before that). */
    var visibleFlag: Option<bool>
    /** The caller's widgets, in order. */
    ghost var members: seq<Widget>

    /** A title bar is shown for a non-empty name unless `show_name` is off. */
    predicate Titled()
      reads this
    {
      name != "" && showName
    }

    /** At most one label, only at the front, showing the current name and
        description; the caller's widgets follow it unchanged. */
    ghost predicate Valid()
      reads this
    {
      && (Titled() ==>
            && |wlist| == |members| + 1 && wlist[1..] == members
            && wlist[0] !in members && wlist[0].html == TitleHtml(desc, name))
      && (!Titled() ==> wlist == members)
    }

    /** `Group(wlist, name=..., desc=..., show_name=..., disabled=...)`. The
        `disabled` flag is recorded but not passed on to the widgets. */
    constructor(ws: seq<Widget>, name: string, desc: string, showName: bool, disabled: bool)
      ensures Valid() && members == ws && children == wlist
      ensures this.name == name && this.desc == desc && this.showName == showName
      ensures this.disabled == disabled && visibleFlag == None
      ensures Titled() ==> fresh(wlist[0])
    {
      wlist, children, members := ws, [], ws;
      this.name, this.desc, this.showName := name, desc, showName;
      this.disabled, visibleFlag := disabled, None;
      new;
      UpdateDesc();
      children := wlist;
    }

    /** `_update_desc()`: puts a fresh title label in front when the group is titled. */
    method UpdateDesc()
      requires wlist == members
      modifies this
      ensures Valid()
      ensures Titled() ==> fresh(wlist[0]) && !wlist[0].disabled && wlist[0].visible
      ensures members == old(members) && name == old(name) && desc == old(desc)
      ensures children == old(children) && disabled == old(disabled) && visibleFlag == old(visibleFlag)
    {
      if Titled() {
        var bar := new Widget.Label(TitleHtml(desc, name));
        wlist := [bar] + wlist;
      }
    }

    /** The `desc` setter: drops the label if there is one, then rebuilds it. A
        rebuilt label is enabled even when the group is disabled. */
    method SetDesc(val: string)
      requires Valid()
      modifies this
      ensures Valid() && desc == val && name == old(name) && members == old(members)
      ensures children == wlist && disabled == old(disabled) && visibleFlag == old(visibleFlag)
      ensures Titled() ==> fresh(wlist[0]) && !wlist[0].disabled
      ensures old(Titled()) ==> old(wlist[0]) !in wlist
    {
      if Titled() {
        wlist := wlist[1..];
      }
      desc := val;
      UpdateDesc();
      children := wlist;
    }

    /** The `name` setter: drops the label if there is one, then rebuilds it for the
        new name. */
    method SetName(val: string)
      requires Valid()
      modifies this
      ensures Valid() && name == val && desc == old(desc) && members == old(members)
      ensures children == wlist && disabled == old(disabled) && visibleFlag == old(visibleFlag)
      ensures Titled() ==> fresh(wlist[0]) && !wlist[0].disabled
      ensures old(Titled()) ==> old(wlist[0]) !in wlist
    {
      if Titled() {
        wlist := wlist[1..];
      }
      name := val;
      UpdateDesc();
      children := wlist;
    }

    /** The `disabled` setter: every element, title label included, takes the value. */
    method SetDisabled(v: bool)
      modifies this, set w: Widget | w in wlist
      ensures disabled == v && wlist == old(wlist) && members == old(members)
      ensures name == old(name) && desc == old(desc) && children == old(children)
      ensures visibleFlag == old(visibleFlag)
      ensures forall i :: 0 <= i < |wlist| ==> wlist[i].disabled == v
      ensures forall i :: 0 <= i < |wlist| ==> wlist[i].visible == old(wlist[i].visible)
      ensures old(Valid()) ==> Valid()
    {
      DisableAll(wlist, v);
      disabled := v;
    }

    /** The `visible` setter: every element takes the value, which is recorded. */
    method SetVisible(v: bool)
      modifies this, set w: Widget | w in wlist
      ensures visibleFlag == Some(v) && wlist == old(wlist) && members == old(members)
      ensures name == old(name) && desc == old(desc) && children == old(children)
      ensures disabled == old(disabled)
      ensures forall i :: 0 <= i < |wlist| ==> wlist[i].visible == v
      ensures forall i :: 0 <= i < |wlist| ==> wlist[i].disabled == old(wlist[i].disabled)
      ensures old(Valid()) ==> Valid()
    {
      ShowAll(wlist, v);
      visibleFlag := Some(v);
    }
  }

  class Tab {
    var wlist: seq<Widget>
    /** Tab index to title. */
    var titles: map<int, string>
    var disabled: bool

    /** `Tab(wlist, titles=...)`: without titles each tab is named after its widget,
        otherwise the i-th title names tab i. */
    constructor(ws: seq<Widget>, given: Option<seq<string>>)
      ensures wlist == ws && !disabled
      ensures given.None? ==>
                && (forall i :: i in titles <==> 0 <= i < |ws|)
                && (forall i :: 0 <= i < |ws| ==> titles[i] == ws[i].name)
      ensures given.Some? ==>
                && (forall i :: i in titles <==> 0 <= i < |given.value|)
                && (forall i :: 0 <= i < |given.value| ==> titles[i] == given.value[i])
    {
      wlist := ws;
      disabled := false;
      if given.None? {
        titles := map i | 0 <= i < |ws| :: ws[i].name;
      } else {
        var ts := given.value;
        titles := map i | 0 <= i < |ts| :: ts[i];
      }
    }

    /** The `disabled` setter: every tab's widget takes the value. */
    method SetDisabled(v: bool)
      modifies this, set w: Widget | w in wlist
      ensures disabled == v && wlist == old(wlist) && titles == old(titles)
      ensures forall i :: 0 <= i < |wlist| ==> wlist[i].disabled == v
      ensures forall i :: 0 <= i < |wlist| ==> wlist[i].visible == old(wlist[i].visible)
    {
      DisableAll(wlist, v);
      disabled := v;
    }
  }
}

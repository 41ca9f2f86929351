/** The tablet-wide state shared by every logical device of one physical
    tablet (WacomCommon), and in it the registry of tools: each tool is
    identified by its type id and serial number, and holds the list of areas
    of the logical devices that use it. */
module Registry {
  import opened Validators

  /** Per-device active area (WacomToolArea). */
  class Area {
    var topX: int
    var topY: int
    var bottomX: int
    var bottomY: int

    constructor ()
      ensures topX == 0 && topY == 0 && bottomX == 0 && bottomY == 0
    {
      topX, topY, bottomX, bottomY := 0, 0, 0, 0;
    }
  }

  /** A physical tool (WacomTool) and the areas that refer to it; the list's
      linked `next` pointers become a sequence. */
  class Tool {
    const typeid: int
    var serial: int
    var areas: seq<Area>

    /** A freshly allocated tool whose area list holds the new device's area. */
    constructor (typeid: int, area: Area)
      ensures this.typeid == typeid && serial == 0 && areas == [area]
    {
      this.typeid := typeid;
      serial := 0;
      areas := [area];
    }
  }

  /** wcmForceDevice: nothing forced, or the serial ISDV4 protocol. */
  datatype ForcedDevice = NotForced | ForcedIsdv4

  /** wcmDevCls: which device class drives the tablet. */
  datatype DeviceClass = OtherClass | Isdv4Class | UsbClass

  class Common {
    /** The device number of the tablet's node (common->min_maj); it is
        recorded when the node is opened and only read here. */
    const minMaj: nat
    var tools: seq<Tool>
    var forceDevice: ForcedDevice
    var deviceClass: DeviceClass
    var tpcButtonDefault: bool
    var rotate: Rotation
    var suppress: int
    var axes: Axes
    var isdv4Speed: int

    /** The tablet as its first device creates it: that device's tool heads
        the list (common->wcmTool). */
    constructor (first: Tool, minMaj: nat)
      requires |first.areas| >= 1
      ensures Valid() && tools == [first] && this.minMaj == minMaj
    {
      this.minMaj := minMaj;
      tools := [first];
      forceDevice, deviceClass, tpcButtonDefault := NotForced, OtherClass, false;
      rotate, suppress := RotateNone, DEFAULT_SUPPRESS;
      axes := Axes(0, 0, 0, 0);
      isdv4Speed := 9600;
    }

    /** The registry's invariant: a head tool exists, every tool has at least
        one area, no two tools share (typeid, serial), and no area is in the
        lists of two tools. */
    ghost predicate Valid()
      reads this`tools, tools`areas, tools`serial
    {
      && |tools| >= 1
      && (forall i {:trigger tools[i].areas} :: 0 <= i < |tools| ==> |tools[i].areas| >= 1)
      && (forall i, j {:trigger KeyOf(tools[i]), KeyOf(tools[j])} :: 0 <= i < j < |tools| ==> KeyOf(tools[i]) != KeyOf(tools[j]))
      && (forall i, j, a {:trigger a in tools[i].areas, a in tools[j].areas} :: 0 <= i < |tools| && 0 <= j < |tools| && i != j && a in tools[i].areas ==> a !in tools[j].areas)
    }

    /** Some registered tool has this (typeid, serial). */
    predicate HasKey(typeid: int, serial: int)
      reads this`tools, tools`serial
    {
      exists i :: 0 <= i < |tools| && KeyOf(tools[i]) == (typeid, serial)
    }

    /** A newly allocated tool and area that no list refers to yet. */
    ghost predicate Detached(tool: Tool, area: Area)
      reads this`tools, tools`areas, tool`areas
    {
      && tool !in tools
      && tool.areas == [area]
      && forall i {:trigger tools[i].areas} :: 0 <= i < |tools| ==> area !in tools[i].areas
    }

    /** The walk over common->wcmTool: the position of the first tool with
        this (typeid, serial), or |tools| when there is none. */
    method FindTool(typeid: int, serial: int) returns (i: nat)
      ensures i <= |tools|
      ensures i < |tools| ==> KeyOf(tools[i]) == (typeid, serial)
      ensures forall j :: 0 <= j < i ==> KeyOf(tools[j]) != (typeid, serial)
    {
      i := 0;
      while i < |tools| && KeyOf(tools[i]) != (typeid, serial)
        invariant i <= |tools|
        invariant forall j :: 0 <= j < i ==> KeyOf(tools[j]) != (typeid, serial)
      {
        i := i + 1;
      }
    }

    /** Append an area at the tail of the area list of tool i. */
    method AddArea(i: nat, area: Area)
      requires Valid() && i < |tools|
      requires forall j :: 0 <= j < |tools| ==> area !in tools[j].areas
      modifies (tools[i] as Tool)`areas
      ensures Valid()
      ensures tools[i].areas == old(tools[i].areas) + [area]
      ensures forall j :: 0 <= j < |tools| && j != i ==> tools[j].areas == old(tools[j].areas)
    {
      var t := tools[i];
      assert forall j :: 0 <= j < |tools| && j != i ==> tools[j] != t by {
        forall j | 0 <= j < |tools| && j != i ensures tools[j] != t {
          if j < i { assert KeyOf(tools[j]) != KeyOf(tools[i]); }
          else { assert KeyOf(tools[i]) != KeyOf(tools[j]); }
        }
      }
      t.areas := t.areas + [area];
    }

    /** Append a tool at the tail of the tool list. */
    method AddTool(tool: Tool)
      requires Valid() && tool !in tools && |tool.areas| >= 1
      requires !HasKey(tool.typeid, tool.serial)
      requires forall j, a :: 0 <= j < |tools| && a in tool.areas ==> a !in tools[j].areas
      modifies this`tools
      ensures Valid()
      ensures tools == old(tools) + [tool]
    {
      tools := tools + [tool];
      assert tools[|tools| - 1] == tool;
    }

    /** Lines 514-541 for a tool that is not the head: adopt the registered
        tool with the same (typeid, serial) and append the area at the tail of
        its area list, or append the new tool at the tail of the tool list. */
    method Attach(tool: Tool, area: Area) returns (attached: Tool)
      requires Valid() && Detached(tool, area)
      modifies this`tools, tools`areas
      ensures Valid() && area in attached.areas && KeyOf(attached) == KeyOf(tool)
      ensures old(HasKey(tool.typeid, tool.serial)) ==>
        && tools == old(tools)
        && attached in tools
        && attached.areas == old(attached.areas) + [area]
        && forall i :: 0 <= i < |tools| && tools[i] != attached ==> tools[i].areas == old(tools[i].areas)
      ensures !old(HasKey(tool.typeid, tool.serial)) ==>
        && tools == old(tools) + [tool]
        && attached == tool
        && tool.areas == [area]
        && forall i :: 0 <= i < |old(tools)| ==> tools[i].areas == old(tools[i].areas)
    {
      var i := FindTool(tool.typeid, tool.serial);
      if i < |tools| {
        // the key is registered: the area joins that tool, the new one is not kept
        attached := tools[i];
        AddArea(i, area);
      } else {
        AddTool(tool);
        attached := tool;
      }
    }

    /** The registry after lines 508-541 handed the device's tool and area
        to it and left `attached` as the device's tool, given the tool list
        `before`, its area lists `areasBefore` and whether the key was
        already registered.  The head tool changes nothing but its serial
        number.  Any other tool keeps the invariant, and either (key already
        registered) leaves the tool list as it was with the area at the tail
        of the matched tool's list, or is itself appended at the tail of the
        tool list; no other tool's areas change. */
    ghost predicate Registered(before: seq<Tool>, areasBefore: seq<seq<Area>>, hadKey: bool,
                               tool: Tool, area: Area, serial: int, attached: Tool)
      reads this`tools, tools`areas, tools`serial, attached`areas, attached`serial
    {
      && KeyOf(attached) == (tool.typeid, serial)
      && if |before| > 0 && tool == before[0] then
        && attached == tool && tools == before
        && forall i :: 0 <= i < |tools| && i < |areasBefore| ==> tools[i].areas == areasBefore[i]
      else
        && Valid() && area in attached.areas
        && (hadKey ==>
          && tools == before
          && attached in tools
          && forall i :: 0 <= i < |tools| && i < |areasBefore| ==>
               tools[i].areas == if tools[i] == attached then areasBefore[i] + [area] else areasBefore[i])
        && (!hadKey ==>
          && tools == before + [tool]
          && attached == tool
          && attached.areas == [area]
          && forall i :: 0 <= i < |before| && i < |areasBefore| ==> tools[i].areas == areasBefore[i])
    }

    /** Lines 508-541 of wcmParseOptions: give the device's tool its serial
        number; then, unless it is the head tool, attach it. */
    method Register(tool: Tool, area: Area, serial: int) returns (attached: Tool)
      requires Valid()
      requires tool == tools[0] || Detached(tool, area)
      modifies this`tools, tools`areas, tool`serial
      ensures tool.serial == serial
      ensures attached == tool || attached in old(tools)
      ensures Registered(old(tools), old(AreasOf(tools)), old(HasKey(tool.typeid, serial)), tool, area, serial, attached)
    {
      if tool == tools[0] {
        tool.serial := serial;
        assert tools[0] == tool;
        return tool;
      }
      tool.serial := serial;
      assert forall i :: 0 <= i < |tools| ==> tools[i] != tool;
      assert HasKey(tool.typeid, serial) == old(HasKey(tool.typeid, serial));
      attached := Attach(tool, area);
    }
  }

  /** The area lists of a list of tools, in order. */
  function AreasOf(ts: seq<Tool>): (r: seq<seq<Area>>)
    reads ts`areas
    ensures |r| == |ts| && forall i :: 0 <= i < |ts| ==> r[i] == ts[i].areas
  {
    if ts == [] then [] else [ts[0].areas] + AreasOf(ts[1..])
  }

  function KeyOf(t: Tool): (int, int)
    reads t`serial
  {
    (t.typeid, t.serial)
  }
}

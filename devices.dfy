/** The per-device entry points: duplicate detection against the other wacom
    devices, the choice of a type for a hot-plugged device, the fan-out of
    the remaining types as new device requests, and the parsing of a
    device's options. */
module Devices {
  import opened Wrappers
  import opened OptionStore
  import opened Kernel
  import opened ToolTypes
  import opened Validators
  import opened Registry

  /** The tool a logical device stands for (the ID bits of priv->flags). */
  datatype ToolKind = StylusKind | EraserKind | CursorKind | TouchKind | PadKind

  /** The driver-private state of one logical device (WacomDeviceRec). */
  class WacomDevice {
    const common: Common
    const kind: ToolKind
    var tool: Tool
    const toolarea: Area
    var absolute: bool
    var topX: int
    var topY: int
    var bottomX: int
    var bottomY: int
    var serial: int
    var pressCurve: Option<Quad>
    var tvResolution: Quad
    var twinview: Twinview

    constructor (common: Common, kind: ToolKind, tool: Tool, toolarea: Area)
      ensures this.common == common && this.kind == kind
      ensures this.tool == tool && this.toolarea == toolarea
      ensures absolute == (kind != CursorKind) && pressCurve.None? && twinview == TvNone
    {
      this.common := common;
      this.kind := kind;
      this.tool := tool;
      this.toolarea := toolarea;
      absolute := kind != CursorKind;
      topX, topY, bottomX, bottomY, serial := 0, 0, 0, 0, 0;
      pressCurve := None;
      tvResolution := Quad(0, 0, 0, 0);
      twinview := TvNone;
    }

    /** wcmParseOptions for the options this model covers, in the source's
        order. The area and the serial number reach the tool registry; an
        invalid ForceDevice or Rotate value stops parsing with 0, before any
        later option is read. */
    method ParseOptions(s: Settings) returns (ok: int)
      requires common.Valid()
      requires tool == common.tools[0] || common.Detached(tool, toolarea)
      modifies this`absolute, common`forceDevice, common`deviceClass, common`tpcButtonDefault, common`rotate
      modifies common`suppress, this`pressCurve, this`tvResolution
      modifies this`topX, this`topY, this`bottomX, this`bottomY, this`serial, this`tool
      modifies toolarea`topX, toolarea`topY, toolarea`bottomX, toolarea`bottomY
      modifies common`tools, common.tools`areas, tool`serial
      modifies common`axes, common`isdv4Speed, this`twinview
      ensures ok == 0 || ok == 1
      ensures ok == 0 <==> BadForceDevice(s) || BadRotate(s)
      ensures absolute == AbsoluteAfter(s, old(absolute), kind)
      ensures s.forceDevice.Some? && ForcesIsdv4(s.forceDevice.value) ==>
        common.forceDevice == ForcedIsdv4 && common.tpcButtonDefault
      ensures s.forceDevice.None? || BadForceDevice(s) ==>
        common.forceDevice == old(common.forceDevice) && common.tpcButtonDefault == old(common.tpcButtonDefault)
      ensures ok == 0 ==> common.deviceClass == ForcedClass(s, old(common.deviceClass))
      ensures BadForceDevice(s) ==> common.rotate == old(common.rotate)
      ensures ok == 1 ==> common.rotate == RotationAfter(s.rotate, old(common.rotate))
      ensures !BadForceDevice(s) ==> common.rotate == RotationAfter(s.rotate, old(common.rotate))
      ensures ok == 0 ==>
        && common.tools == old(common.tools) && tool == old(tool)
        && common.suppress == old(common.suppress)
        && common.axes == old(common.axes) && common.isdv4Speed == old(common.isdv4Speed)
        && pressCurve == old(pressCurve) && tvResolution == old(tvResolution)
        && twinview == old(twinview) && serial == old(serial)
        && topX == old(topX) && topY == old(topY) && bottomX == old(bottomX) && bottomY == old(bottomY)
        && toolarea.topX == old(toolarea.topX) && toolarea.topY == old(toolarea.topY)
        && toolarea.bottomX == old(toolarea.bottomX) && toolarea.bottomY == old(toolarea.bottomY)
        && tool.serial == old(tool.serial)
        && forall i :: 0 <= i < |common.tools| ==> common.tools[i].areas == old(common.tools[i].areas)
      ensures ok == 1 ==>
        Filtered(s, ForcedClass(s, old(common.deviceClass)), old(common.suppress), old(pressCurve), old(tvResolution))
      ensures ok == 1 ==> AreaSet(s)
      ensures ok == 1 ==> common.Registered(old(common.tools), old(AreasOf(common.tools)),
        old(common.HasKey(tool.typeid, s.serial.GetOr(0))), old(tool), toolarea, s.serial.GetOr(0), tool)
      ensures ok == 1 ==> Limited(s, old(common.axes), old(common.isdv4Speed), old(twinview))
    {
      ok := ParseModes(s);
      if ok == 0 {
        return;
      }
      ParseRest(s);
    }

    /** Lines 414-642, reached once the mode options are accepted. */
    method ParseRest(s: Settings)
      requires common.Valid()
      requires tool == common.tools[0] || common.Detached(tool, toolarea)
      modifies common`deviceClass, common`suppress, this`pressCurve, this`tvResolution
      modifies this`topX, this`topY, this`bottomX, this`bottomY, this`serial, this`tool
      modifies toolarea`topX, toolarea`topY, toolarea`bottomX, toolarea`bottomY
      modifies common`tools, common.tools`areas, tool`serial
      modifies common`axes, common`isdv4Speed, this`twinview
      ensures Filtered(s, old(common.deviceClass), old(common.suppress), old(pressCurve), old(tvResolution))
      ensures AreaSet(s)
      ensures common.Registered(old(common.tools), old(AreasOf(common.tools)),
        old(common.HasKey(tool.typeid, s.serial.GetOr(0))), old(tool), toolarea, s.serial.GetOr(0), tool)
      ensures Limited(s, old(common.axes), old(common.isdv4Speed), old(twinview))
    {
      ParseFilters(s);
      ParseTail(s);
    }

    /** Lines 496-642: the area and registry (lines 496-541) and the limits
        (lines 547-642).  The limits are applied first here: neither part
        reads what the other writes, so the resulting state is the same. */
    method ParseTail(s: Settings)
      requires common.Valid()
      requires tool == common.tools[0] || common.Detached(tool, toolarea)
      modifies this`topX, this`topY, this`bottomX, this`bottomY, this`serial, this`tool
      modifies toolarea`topX, toolarea`topY, toolarea`bottomX, toolarea`bottomY
      modifies common`tools, common.tools`areas, tool`serial
      modifies common`axes, common`isdv4Speed, this`twinview
      ensures AreaSet(s)
      ensures common.Registered(old(common.tools), old(AreasOf(common.tools)),
        old(common.HasKey(tool.typeid, s.serial.GetOr(0))), old(tool), toolarea, s.serial.GetOr(0), tool)
      ensures Limited(s, old(common.axes), old(common.isdv4Speed), old(twinview))
    {
      ghost var before, areas, hadKey := common.tools, AreasOf(common.tools), common.HasKey(tool.typeid, s.serial.GetOr(0));
      ParseLimits(s);
      assert common.tools == before && AreasOf(common.tools) == areas && common.HasKey(tool.typeid, s.serial.GetOr(0)) == hadKey;
      ParseArea(s);
    }

    /** Lines 348-412: Mode (and a pad's core mode), then ForceDevice and
        Rotate, whose invalid values make wcmParseOptions fail. */
    method ParseModes(s: Settings) returns (ok: int)
      modifies this`absolute, common`forceDevice, common`deviceClass, common`tpcButtonDefault, common`rotate
      ensures ok == 0 || ok == 1
      ensures ok == 0 <==> BadForceDevice(s) || BadRotate(s)
      ensures absolute == AbsoluteAfter(s, old(absolute), kind)
      ensures s.forceDevice.Some? && ForcesIsdv4(s.forceDevice.value) ==>
        common.forceDevice == ForcedIsdv4 && common.tpcButtonDefault
      ensures s.forceDevice.None? || BadForceDevice(s) ==>
        common.forceDevice == old(common.forceDevice) && common.tpcButtonDefault == old(common.tpcButtonDefault)
      ensures common.deviceClass == ForcedClass(s, old(common.deviceClass))
      ensures BadForceDevice(s) ==> common.rotate == old(common.rotate)
      ensures ok == 1 ==> common.rotate == RotationAfter(s.rotate, old(common.rotate))
      ensures !BadForceDevice(s) ==> common.rotate == RotationAfter(s.rotate, old(common.rotate))
    {
      absolute := ModeAbsolute(s.mode, absolute, kind == CursorKind);
      if kind == PadKind {
        // the pad's mode follows whether it is a core device
        absolute := !s.coreDevice;
      }

      if s.forceDevice.Some? {
        if ForcesIsdv4(s.forceDevice.value) {
          common.forceDevice := ForcedIsdv4;
          common.deviceClass := Isdv4Class;
          common.tpcButtonDefault := true;
        } else {
          return 0;
        }
      }

      if s.rotate.Some? {
        match RotateOption(s.rotate.value)
        case SetRotation(r) => common.rotate := r;
        case KeepRotation =>
        case RotateInvalid => return 0;
      }
      ok := 1;
    }

    /** The state lines 414-489 leave: the device class after the USB option,
        the Suppress clamp, the pressure curve (not for cursor or touch
        devices) and the TwinView monitor resolutions, from the values they
        started with. */
    ghost predicate Filtered(s: Settings, deviceClass0: DeviceClass, suppress0: int, curve0: Option<Quad>, tv0: Quad)
      reads common`deviceClass, common`suppress, this`pressCurve, this`tvResolution
    {
      && common.deviceClass == UsbClassAfter(s.usb, deviceClass0)
      && common.suppress == ClampSuppress(s.suppress.GetOr(suppress0))
      && pressCurve == PressCurve(s.pressCurve, kind != CursorKind && kind != TouchKind, curve0)
      && tvResolution == TvResolution(s.tvResolution, tv0)
    }

    /** Lines 414-489: Suppress, USB, the pressure curve and the TwinView
        monitor resolutions. */
    method ParseFilters(s: Settings)
      modifies common`deviceClass, common`suppress, this`pressCurve, this`tvResolution
      ensures Filtered(s, old(common.deviceClass), old(common.suppress), old(pressCurve), old(tvResolution))
    {
      common.suppress := ClampSuppress(s.suppress.GetOr(common.suppress));
      common.deviceClass := UsbClassAfter(s.usb, common.deviceClass);
      pressCurve := PressCurve(s.pressCurve, kind != CursorKind && kind != TouchKind, pressCurve);
      tvResolution := TvResolution(s.tvResolution, tvResolution);
    }

    /** The corners and the serial number lines 496-507 leave on the device
        and its area: each option, or 0 when it is absent. */
    ghost predicate AreaSet(s: Settings)
      reads this`topX, this`topY, this`bottomX, this`bottomY, this`serial
      reads toolarea`topX, toolarea`topY, toolarea`bottomX, toolarea`bottomY
    {
      && topX == s.topX.GetOr(0) && topY == s.topY.GetOr(0)
      && bottomX == s.bottomX.GetOr(0) && bottomY == s.bottomY.GetOr(0)
      && serial == s.serial.GetOr(0)
      && toolarea.topX == topX && toolarea.topY == topY
      && toolarea.bottomX == bottomX && toolarea.bottomY == bottomY
    }

    /** Lines 496-541: the area corners and the serial number, copied to the
        device's area and tool, which then join the tablet's registry. */
    method ParseArea(s: Settings)
      requires common.Valid()
      requires tool == common.tools[0] || common.Detached(tool, toolarea)
      modifies this`topX, this`topY, this`bottomX, this`bottomY, this`serial, this`tool
      modifies toolarea`topX, toolarea`topY, toolarea`bottomX, toolarea`bottomY
      modifies common`tools, common.tools`areas, tool`serial
      ensures AreaSet(s)
      ensures common.Registered(old(common.tools), old(AreasOf(common.tools)),
        old(common.HasKey(tool.typeid, s.serial.GetOr(0))), old(tool), toolarea, s.serial.GetOr(0), tool)
    {
      SetArea(s);
      JoinRegistry();
    }

    /** Lines 496-507: the corners and the serial number, also copied to the area. */
    method SetArea(s: Settings)
      modifies this`topX, this`topY, this`bottomX, this`bottomY, this`serial
      modifies toolarea`topX, toolarea`topY, toolarea`bottomX, toolarea`bottomY
      ensures AreaSet(s)
    {
      topX, topY := s.topX.GetOr(0), s.topY.GetOr(0);
      bottomX, bottomY := s.bottomX.GetOr(0), s.bottomY.GetOr(0);
      serial := s.serial.GetOr(0);
      toolarea.topX, toolarea.topY := topX, topY;
      toolarea.bottomX, toolarea.bottomY := bottomX, bottomY;
    }

    /** Lines 508-541: the tool takes the serial number and joins the registry. */
    method JoinRegistry()
      requires common.Valid()
      requires tool == common.tools[0] || common.Detached(tool, toolarea)
      modifies this`tool, common`tools, common.tools`areas, tool`serial
      ensures common.Registered(old(common.tools), old(AreasOf(common.tools)),
        old(common.HasKey(tool.typeid, serial)), old(tool), toolarea, serial, tool)
    {
      tool := common.Register(tool, toolarea, serial);
    }

    /** The state lines 547-642 leave: the sensor ranges (as corrected, see
        AxisRanges), the ISDV4 serial speed when ISDV4 is forced (BaudRate
        defaults to 9600), and the TwinView layout, from the values they
        started with. */
    ghost predicate Limited(s: Settings, axes0: Axes, speed0: int, twinview0: Twinview)
      reads common`axes, common`isdv4Speed, common`forceDevice, this`twinview
    {
      && common.axes == AxisRanges(kind == TouchKind, s.maxX, s.maxY, axes0)
      && common.isdv4Speed == (if common.forceDevice == ForcedIsdv4 then Isdv4Speed(s.baudRate.GetOr(9600), speed0) else speed0)
      && twinview == TwinviewOption(s.twinview, twinview0)
    }

    /** Lines 547-642: the sensor ranges, the ISDV4 speed and the TwinView layout. */
    method ParseLimits(s: Settings)
      modifies common`axes, common`isdv4Speed, this`twinview
      ensures Limited(s, old(common.axes), old(common.isdv4Speed), old(twinview))
    {
      common.axes := AxisRanges(kind == TouchKind, s.maxX, s.maxY, common.axes);
      if common.forceDevice == ForcedIsdv4 {
        common.isdv4Speed := Isdv4Speed(s.baudRate.GetOr(9600), common.isdv4Speed);
      }
      twinview := TwinviewOption(s.twinview, twinview);
    }
  }

  /** The options of one device as wcmParseOptions reads them: a string,
      integer or boolean when the option is present, the outcome of the
      sscanf for the two four-number options.  `coreDevice` is not an
      option: it says whether the device's flags make it a core pointer
      (XI86_ALWAYS_CORE or XI86_CORE_POINTER). */
  datatype Settings = Settings(
    mode: Option<string>,
    coreDevice: bool,
    forceDevice: Option<string>,
    rotate: Option<string>,
    suppress: Option<int>,
    usb: Option<bool>,
    pressCurve: Scan,
    tvResolution: Scan,
    topX: Option<int>, topY: Option<int>, bottomX: Option<int>, bottomY: Option<int>,
    serial: Option<int>,
    maxX: Option<int>, maxY: Option<int>,
    baudRate: Option<int>,
    twinview: Option<string>)

  /** The absolute flag after lines 348-372: the Mode option decides, except
      for a pad, which is relative as a core device and absolute otherwise. */
  function AbsoluteAfter(s: Settings, current: bool, kind: ToolKind): (r: bool)
    ensures kind == PadKind ==> r == !s.coreDevice
    ensures kind != PadKind ==> r == ModeAbsolute(s.mode, current, kind == CursorKind)
  {
    if kind == PadKind then !s.coreDevice else ModeAbsolute(s.mode, current, kind == CursorKind)
  }

  /** The device class after a ForceDevice option: ISDV4 selects the ISDV4
      class; anything else leaves it. */
  function ForcedClass(s: Settings, current: DeviceClass): (r: DeviceClass)
    ensures r != current ==> s.forceDevice.Some? && ForcesIsdv4(s.forceDevice.value) && r == Isdv4Class
  {
    if s.forceDevice.Some? && ForcesIsdv4(s.forceDevice.value) then Isdv4Class else current
  }

  /** USB (lines 436-438): the option defaults to whether the class already is
      USB, and a true value selects the USB class; so the class becomes USB
      exactly when the option is on or it already was, and changes only then. */
  function UsbClassAfter(usb: Option<bool>, current: DeviceClass): (r: DeviceClass)
    ensures r == UsbClass <==> usb == Some(true) || current == UsbClass
    ensures r != current ==> usb == Some(true)
  {
    if usb.GetOr(current == UsbClass) then UsbClass else current
  }

  predicate BadForceDevice(s: Settings) {
    s.forceDevice.Some? && !ForcesIsdv4(s.forceDevice.value)
  }

  predicate BadRotate(s: Settings) {
    s.rotate.Some? && RotateOption(s.rotate.value).RotateInvalid?
  }

  /** common->wcmRotate after a Rotate option: CW, CCW and HALF set it; an
      absent option or NONE leave it as it was. */
  function RotationAfter(s: Option<string>, current: Rotation): Rotation {
    if s.Some? && RotateOption(s.value).SetRotation? then RotateOption(s.value).rotation else current
  }

  /** An X input device record (LocalDeviceRec) of this driver or another. */
  class LocalDevice {
    const name: string
    const driverName: string
    var options: Options
    var fd: int
    const priv: WacomDevice

    constructor (name: string, driverName: string, options: Options, priv: WacomDevice)
      ensures this.name == name && this.driverName == driverName
      ensures this.options == options && this.priv == priv && fd == -1
    {
      this.name := name;
      this.driverName := driverName;
      this.options := options;
      this.priv := priv;
      fd := -1;
    }

    /** wcmIsDuplicate: 0 lets the device be added, 1 means the node cannot be
        opened, 4 that it reports device number 0, and 3 that another wacom
        device from a different source already uses the same device number.
        The descriptor it opens is always closed again. */
    method IsDuplicate(files: FileTable, node: Node, devices: seq<LocalDevice>) returns (isInUse: int)
      requires files.Valid()
      modifies this`fd, files
      ensures files.Valid() && fd == -1 && files.open == old(files.open)
      ensures isInUse in {0, 1, 3, 4}
      ensures Source(this) == "" ==> isInUse == 0 && files.next == old(files.next)
      ensures Source(this) != "" && !node.opens ==> isInUse == 1
      ensures Source(this) != "" && node.opens ==> isInUse == OpenedVerdict(node, old(InUseElsewhere(this, devices, node)))
    {
      var lsource := CheckStr(options, SourceKey, "");
      isInUse := 0;
      fd := -1;
      // no _source option: a hand-configured device is never a duplicate
      if |lsource| == 0 {
        return;
      }
      fd := files.Open(node.opens);
      if fd < 0 {
        isInUse := 1;
        return;
      }
      isInUse := CheckOpened(node, devices);
      files.Close(fd);
      fd := -1;
    }

    /** Lines 109-134 of wcmIsDuplicate, once the node is open: the device
        number decides, and a non-zero one is looked up among the other
        devices. */
    method CheckOpened(node: Node, devices: seq<LocalDevice>) returns (isInUse: int)
      ensures isInUse == OpenedVerdict(node, old(InUseElsewhere(this, devices, node)))
    {
      isInUse := 0;
      if node.stat.StatFails? {
        // no device number to compare against: the device is accepted
        return;
      }
      if node.stat.rdev != 0 {
        var matched := CheckSource(this, devices, node.stat.rdev);
        if matched {
          isInUse := 3;
        }
      } else {
        isInUse := 4;
      }
    }

    /** wcmNeedAutoHotplug: a device that comes from HAL without a type gets
        the first type the node supports (or none); its options then carry
        that Type, the shared source "_driver/wacom" and the stamp of this
        group of devices. Otherwise nothing changes and 0 is returned. */
    method NeedAutoHotplug(files: FileTable, node: Node, requested: Option<string>, stamp: string)
      returns (r: int, typeName: Option<string>)
      requires files.Valid()
      modifies this`options, files
      ensures files.Valid()
      ensures r == 0 || r == 1
      ensures r == 1 <==> requested.None? && CheckStr(old(options), SourceKey, "") == "server/hal"
      ensures r == 0 ==>
        typeName == requested && options == old(options) &&
        files.open == old(files.open) && files.next == old(files.next)
      ensures r == 1 ==> typeName == FirstValid(node) && options == Stamped(old(options), typeName, stamp)
      ensures !LeaksDescriptor(node) ==> files.open == old(files.open)
      ensures old(files.open) <= files.open
    {
      var source := CheckStr(options, SourceKey, "");
      typeName := requested;
      if requested.Some? {
        return 0, typeName;
      }
      if source != "server/hal" {
        return 0, typeName;
      }
      var i := 0;
      while i < |WcmTypes|
        invariant 0 <= i <= |WcmTypes|
        invariant typeName.None? && options == old(options)
        invariant forall j :: 0 <= j < i ==> !ValidFor(node, WcmTypes[j].name)
        invariant files.Valid() && old(files.open) <= files.open
        invariant !LeaksDescriptor(node) ==> files.open == old(files.open)
      {
        var valid := IsAValidType(files, node, WcmTypes[i].name);
        if valid {
          typeName := Some(WcmTypes[i].name);
          FirstValidIsFirst(node, i);
          break;
        }
        i := i + 1;
      }
      if typeName.None? {
        NoValidType(node);
      }
      options := Replace(options, TypeKey, TypeValue(typeName));
      options := Replace(options, SourceKey, Str("_driver/wacom"));
      options := Replace(options, UniqKey, Str(stamp));
      r := 1;
    }

    /** wcmHotplugOthers: one new-device request for every valid type after
        the first, each with this device's options converted to that type. */
    method HotplugOthers(files: FileTable, node: Node) returns (requests: seq<Options>)
      requires files.Valid()
      modifies files
      ensures files.Valid()
      ensures |requests| == |OtherValidTypes(node)|
      ensures forall k :: 0 <= k < |requests| ==> requests[k] == Converted(options, name, OtherValidTypes(node)[k])
      ensures !LeaksDescriptor(node) ==> files.open == old(files.open)
      ensures old(files.open) <= files.open
    {
      var skip := true;
      requests := [];
      for i := 0 to |WcmTypes|
        invariant files.Valid() && old(files.open) <= files.open
        invariant !LeaksDescriptor(node) ==> files.open == old(files.open)
        invariant skip <==> ValidTypesUpTo(node, i) == []
        invariant requests == ConvertedAll(options, name, AfterFirst(ValidTypesUpTo(node, i)))
      {
        skip, requests := HotplugStep(files, node, i, skip, requests);
      }
      assert OtherValidTypes(node) == AfterFirst(ValidTypesUpTo(node, |WcmTypes|));
      forall k | 0 <= k < |requests| ensures requests[k] == Converted(options, name, OtherValidTypes(node)[k]) {
        ConvertedAllAt(options, name, OtherValidTypes(node), k);
      }
    }

    /** One pass of wcmHotplugOthers' loop, over the type at position i:
        the first valid type is skipped, every later one gets a request. */
    method HotplugStep(files: FileTable, node: Node, i: nat, skip: bool, requests: seq<Options>)
      returns (skip': bool, requests': seq<Options>)
      requires i < |WcmTypes| && files.Valid()
      requires skip <==> ValidTypesUpTo(node, i) == []
      requires requests == ConvertedAll(options, name, AfterFirst(ValidTypesUpTo(node, i)))
      modifies files
      ensures files.Valid() && old(files.open) <= files.open
      ensures !LeaksDescriptor(node) ==> files.open == old(files.open)
      ensures skip' <==> ValidTypesUpTo(node, i + 1) == []
      ensures requests' == ConvertedAll(options, name, AfterFirst(ValidTypesUpTo(node, i + 1)))
    {
      var valid := IsAValidType(files, node, WcmTypes[i].name);
      ghost var before := ValidTypesUpTo(node, i);
      assert ValidTypesUpTo(node, i + 1) == before + (if valid then [WcmTypes[i].name] else []);
      skip', requests' := skip, requests;
      if valid {
        if skip {
          skip' := false;
        } else {
          var opts := DupConvert(options, name, WcmTypes[i].name);
          requests' := requests + [opts];
          ghost var ts := AfterFirst(before) + [WcmTypes[i].name];
          assert AfterFirst(before + [WcmTypes[i].name]) == ts;
          assert ts[..|ts| - 1] == AfterFirst(before);
        }
      } else {
        assert before + [] == before;
      }
    }
  }

  /** The names of the options these operations read or edit. */
  const SourceKey: string := "_source"
  const DeviceKey: string := "Device"
  const TypeKey: string := "Type"
  const NameKey: string := "Name"
  const UniqKey: string := "_wacom uniq"

  /** Another device claims the device number the node reports. */
  predicate InUseElsewhere(local: LocalDevice, devices: seq<LocalDevice>, node: Node)
    reads local`options, devices`options
  {
    node.stat.StatOk? && exists i :: 0 <= i < |devices| && Claims(devices[i], local, node.stat.rdev)
  }

  /** The verdict on a node that opened: 0 when its device number cannot be
      read, 4 when it is 0, 3 when another device claims it, 0 otherwise. */
  function OpenedVerdict(node: Node, claimed: bool): (v: int)
    ensures v in {0, 3, 4}
    ensures v == 3 <==> node.stat.StatOk? && node.stat.rdev != 0 && claimed
    ensures v == 4 <==> node.stat == StatOk(0)
  {
    match node.stat
    case StatFails => 0
    case StatOk(rdev) => if rdev == 0 then 4 else if claimed then 3 else 0
  }

  /** The value of the "_source" option, "" when there is none. */
  function Source(d: LocalDevice): string
    reads d`options
  {
    CheckStr(d.options, SourceKey, "")
  }

  /** strstr(s, w) != NULL. */
  predicate Contains(s: string, w: string) {
    |w| <= |s| && (s[..|w|] == w || Contains(s[1..], w))
  }

  /** Device d, a wacom device with a Device option other than local,
      belongs to the tablet with device number minMaj and was added from a
      different source than local. */
  predicate Claims(d: LocalDevice, local: LocalDevice, minMaj: nat)
    reads d`options, local`options
  {
    && StrOption(d.options, DeviceKey).Some?
    && Contains(d.driverName, "wacom")
    && d != local
    && d.priv.common.minMaj != 0
    && d.priv.common.minMaj == minMaj
    && Source(local) != Source(d)
  }

  /** xf86WcmCheckSource: walk the device list and report whether some other
      device claims the device number minMaj. */
  method CheckSource(local: LocalDevice, devices: seq<LocalDevice>, minMaj: nat) returns (found: bool)
    ensures found <==> exists i :: 0 <= i < |devices| && Claims(devices[i], local, minMaj)
  {
    var fsource := CheckStr(local.options, SourceKey, "");
    found := false;
    var i := 0;
    while i < |devices|
      invariant 0 <= i <= |devices|
      invariant !found
      invariant forall j :: 0 <= j < i ==> !Claims(devices[j], local, minMaj)
    {
      var d := devices[i];
      var device := StrOption(d.options, DeviceKey);
      // a device without a Device option or of another driver is skipped
      if device.None? || !Contains(d.driverName, "wacom") {
        i := i + 1;
        continue;
      }
      if local != d {
        var psource := CheckStr(d.options, SourceKey, "");
        var pCommon := d.priv.common;
        if pCommon.minMaj != 0 && pCommon.minMaj == minMaj {
          // a different source claims the node; the same source is a sibling
          if fsource != psource {
            found := true;
            assert Claims(devices[i], local, minMaj);
            return;
          }
        }
      }
      i := i + 1;
    }
  }

  /** The value xf86AddNewOption stores for the chosen type; without one the
      option is added with no value. */
  function TypeValue(t: Option<string>): Value {
    match t
    case Some(s) => Str(s)
    case None => NoValue
  }

  /** The options of a device after wcmNeedAutoHotplug has picked its type. */
  function Stamped(opts: Options, t: Option<string>, stamp: string): Options {
    Replace(Replace(Replace(opts, TypeKey, TypeValue(t)), SourceKey, Str("_driver/wacom")), UniqKey, Str(stamp))
  }

  /** The option list of a request for type t: a copy of the options with
      Type replaced by t and Name by "<name> <t>", in the reverse order of
      the copy. */
  function Converted(opts: Options, name: string, t: string): Options {
    Reversed(Replace(Replace(opts, TypeKey, Str(t)), NameKey, Str(name + " " + t)))
  }

  /** The requests for a list of types, one per type in the same order. */
  function ConvertedAll(opts: Options, name: string, ts: seq<string>): (r: seq<Options>)
    ensures |r| == |ts|
  {
    if ts == [] then [] else ConvertedAll(opts, name, ts[..|ts| - 1]) + [Converted(opts, name, ts[|ts| - 1])]
  }

  lemma {:induction false} ConvertedAllAt(opts: Options, name: string, ts: seq<string>, k: nat)
    requires k < |ts|
    ensures ConvertedAll(opts, name, ts)[k] == Converted(opts, name, ts[k])
  {
    if k < |ts| - 1 {
      ConvertedAllAt(opts, name, ts[..|ts| - 1], k);
    }
  }

  /** wcmOptionDupConvert: edit a copy of the options, then build the input
      option list by prepending each option of the copy. */
  method DupConvert(opts: Options, name: string, t: string) returns (iopts: Options)
    ensures iopts == Converted(opts, name, t)
  {
    var dummy := opts;
    var newName := name + " " + t;
    dummy := Replace(dummy, TypeKey, Str(t));
    dummy := Replace(dummy, NameKey, Str(newName));
    iopts := [];
    var k := 0;
    while k < |dummy|
      invariant 0 <= k <= |dummy|
      invariant iopts == Reversed(dummy[..k])
    {
      assert dummy[..k + 1][..k] == dummy[..k];
      iopts := [dummy[k]] + iopts;
      k := k + 1;
    }
    assert dummy[..k] == dummy;
  }

  /** The first character of each edited name's folded spelling. */
  lemma TypeKeyHead() ensures |Fold(TypeKey)| > 0 && Fold(TypeKey)[0] == 't' { FoldCons(TypeKey); }
  lemma NameKeyHead() ensures |Fold(NameKey)| > 0 && Fold(NameKey)[0] == 'n' { FoldCons(NameKey); }
  lemma SourceKeyHead() ensures |Fold(SourceKey)| > 0 && Fold(SourceKey)[0] == 's' {
    FoldCons(SourceKey);
    FoldCons(SourceKey[1..]);
  }
  lemma UniqKeyHead() ensures |Fold(UniqKey)| > 0 && Fold(UniqKey)[0] == 'w' {
    FoldCons(UniqKey);
    FoldCons(UniqKey[1..]);
  }

  /** The option names these operations edit are distinct under xf86NameCmp. */
  lemma EditedNamesDistinct()
    ensures !SameName(TypeKey, NameKey) && !SameName(TypeKey, SourceKey) && !SameName(TypeKey, UniqKey)
    ensures !SameName(SourceKey, UniqKey) && !SameName(NameKey, SourceKey) && !SameName(NameKey, UniqKey)
    ensures !SameName(NameKey, TypeKey) && !SameName(SourceKey, TypeKey) && !SameName(UniqKey, TypeKey)
    ensures !SameName(UniqKey, SourceKey) && !SameName(SourceKey, NameKey) && !SameName(UniqKey, NameKey)
  {
    TypeKeyHead();
    NameKeyHead();
    SourceKeyHead();
    UniqKeyHead();
    HeadsDiffer(TypeKey, NameKey);
    HeadsDiffer(TypeKey, SourceKey);
    HeadsDiffer(TypeKey, UniqKey);
    HeadsDiffer(SourceKey, UniqKey);
    HeadsDiffer(NameKey, SourceKey);
    HeadsDiffer(NameKey, UniqKey);
  }

  /** A hot-plugged device's keys stay unique. */
  lemma StampedUnique(opts: Options, t: Option<string>, stamp: string)
    requires UniqueKeys(opts)
    ensures UniqueKeys(Stamped(opts, t, stamp))
  {
    var o1 := Replace(opts, TypeKey, TypeValue(t));
    var o2 := Replace(o1, SourceKey, Str("_driver/wacom"));
    assert Stamped(opts, t, stamp) == Replace(o2, UniqKey, Str(stamp));
    ReplaceUnique(opts, TypeKey, TypeValue(t));
    ReplaceUnique(o1, SourceKey, Str("_driver/wacom"));
    ReplaceUnique(o2, UniqKey, Str(stamp));
  }

  /** A hot-plugged device carries its type, the shared source and the stamp. */
  lemma StampedLookups(opts: Options, t: Option<string>, stamp: string)
    ensures Lookup(Stamped(opts, t, stamp), TypeKey) == Some(TypeValue(t))
    ensures Lookup(Stamped(opts, t, stamp), SourceKey) == Some(Str("_driver/wacom"))
    ensures Lookup(Stamped(opts, t, stamp), UniqKey) == Some(Str(stamp))
  {
    EditedNamesDistinct();
    var o1 := Replace(opts, TypeKey, TypeValue(t));
    var o2 := Replace(o1, SourceKey, Str("_driver/wacom"));
    assert Stamped(opts, t, stamp) == Replace(o2, UniqKey, Str(stamp));
    ReplaceSame(opts, TypeKey, TypeValue(t));
    ReplaceOther(o1, SourceKey, Str("_driver/wacom"), TypeKey);
    ReplaceOther(o2, UniqKey, Str(stamp), TypeKey);
    ReplaceSame(o1, SourceKey, Str("_driver/wacom"));
    ReplaceOther(o2, UniqKey, Str(stamp), SourceKey);
    ReplaceSame(o2, UniqKey, Str(stamp));
  }

  /** Every option other than the three it sets keeps its value. */
  lemma StampedKeepsOthers(opts: Options, t: Option<string>, stamp: string, other: string)
    requires !SameName(other, TypeKey) && !SameName(other, SourceKey) && !SameName(other, UniqKey)
    ensures Lookup(Stamped(opts, t, stamp), other) == Lookup(opts, other)
  {
    var o1 := Replace(opts, TypeKey, TypeValue(t));
    var o2 := Replace(o1, SourceKey, Str("_driver/wacom"));
    assert Stamped(opts, t, stamp) == Replace(o2, UniqKey, Str(stamp));
    SameNameSym(other, TypeKey);
    SameNameSym(other, SourceKey);
    SameNameSym(other, UniqKey);
    ReplaceOther(opts, TypeKey, TypeValue(t), other);
    ReplaceOther(o1, SourceKey, Str("_driver/wacom"), other);
    ReplaceOther(o2, UniqKey, Str(stamp), other);
  }

  /** A request for type t names its type and "<name> <t>"; every other
      option of the parent reaches it unchanged. */
  lemma ConvertedLookups(opts: Options, name: string, t: string, other: string)
    requires UniqueKeys(opts)
    ensures Lookup(Converted(opts, name, t), TypeKey) == Some(Str(t))
    ensures Lookup(Converted(opts, name, t), NameKey) == Some(Str(name + " " + t))
    ensures !SameName(other, TypeKey) && !SameName(other, NameKey) ==>
      Lookup(Converted(opts, name, t), other) == Lookup(opts, other)
  {
    EditedNamesDistinct();
    var o1 := Replace(opts, TypeKey, Str(t));
    var o2 := Replace(o1, NameKey, Str(name + " " + t));
    ReplaceUnique(opts, TypeKey, Str(t));
    ReplaceUnique(o1, NameKey, Str(name + " " + t));
    ReplaceSame(opts, TypeKey, Str(t));
    ReplaceOther(o1, NameKey, Str(name + " " + t), TypeKey);
    ReplaceSame(o1, NameKey, Str(name + " " + t));
    LookupReversed(o2, TypeKey);
    LookupReversed(o2, NameKey);
    LookupReversed(o2, other);
    if !SameName(other, TypeKey) && !SameName(other, NameKey) {
      SameNameSym(other, TypeKey);
      SameNameSym(other, NameKey);
      ReplaceOther(opts, TypeKey, Str(t), other);
      ReplaceOther(o1, NameKey, Str(name + " " + t), other);
    }
  }

  /** Every device fanned out from a hot-plugged parent, whatever its type,
      has the parent's source "_driver/wacom" and its stamp, so the group
      can be found by the stamp (and see SiblingsNotClaimed). */
  lemma SiblingsShareSourceAndStamp(opts: Options, name: string, first: Option<string>, stamp: string, t: string)
    requires UniqueKeys(opts)
    ensures var parent := Stamped(opts, first, stamp);
      var child := Converted(parent, name, t);
      && Lookup(child, SourceKey) == Lookup(parent, SourceKey) == Some(Str("_driver/wacom"))
      && CheckStr(child, SourceKey, "") == "_driver/wacom"
      && Lookup(child, UniqKey) == Some(Str(stamp))
      && Lookup(child, TypeKey) == Some(Str(t))
  {
    EditedNamesDistinct();
    var parent := Stamped(opts, first, stamp);
    StampedUnique(opts, first, stamp);
    StampedLookups(opts, first, stamp);
    ConvertedLookups(parent, name, t, SourceKey);
    ConvertedLookups(parent, name, t, UniqKey);
    CheckStrFound(Converted(parent, name, t), SourceKey, "_driver/wacom", "");
  }

  /** A device fanned out from a hot-plugged parent and the parent itself,
      or two of its siblings, never claim each other's device number, so
      xf86WcmCheckSource does not refuse one as a duplicate of the other. */
  lemma SiblingsNotClaimed(d: LocalDevice, l: LocalDevice, opts: Options, name: string, first: Option<string>,
                           stamp: string, td: string, tl: string, minMaj: nat)
    requires UniqueKeys(opts)
    requires d.options == Converted(Stamped(opts, first, stamp), name, td)
    requires l.options == Stamped(opts, first, stamp) || l.options == Converted(Stamped(opts, first, stamp), name, tl)
    ensures !Claims(d, l, minMaj) && !Claims(l, d, minMaj)
  {
    SiblingsShareSourceAndStamp(opts, name, first, stamp, td);
    SiblingsShareSourceAndStamp(opts, name, first, stamp, tl);
  }
}

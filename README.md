# wcmValidateDevice: device validation and tool sharing in xf86-input-wacom

This project models the part of the Wacom X input driver that handles a new
logical device (stylus, eraser, cursor, touch or pad) of a tablet. It covers
these steps:

- **Duplicate detection.** `wcmIsDuplicate` decides whether the device may be
  added. It opens the device node and reads its device number. It then asks
  `xf86WcmCheckSource` whether another wacom device from a different source
  already uses that number. The verdict is 0 (allow), 1 (the node cannot be
  opened), 3 (another device uses the number) or 4 (the device number is 0).
- **Type validation.** The `wcmType` table maps the type names to tool key
  codes. `checkValidType` and `wcmIsAValidType` check a type name against the
  key bits the kernel reports.
- **Auto-hotplug selection.** A device that comes from HAL without a type is
  handled by `wcmNeedAutoHotplug`. It picks the first valid type in table
  order, or none. It then rewrites the device's options: `Type`, the shared
  source `_driver/wacom` and the group's stamp `_wacom uniq`.
- **Fan-out.** `wcmHotplugOthers` asks the server to create one device for
  every valid type after the first. `wcmOptionDupConvert` builds each new
  device's option list.
- **Option parsing.** `wcmParseOptions` reads the value checks Mode,
  ForceDevice, Rotate, Suppress, USB, PressCurve, TVResolution, MaxX/MaxY, BaudRate
  and Twinview. It also writes the device's area and serial number into the
  tablet's registry of tools. A tool is identified by its type id and serial
  number, and holds the areas of the logical devices that use it.

The model's modules:

| module | role |
|---|---|
| `OptionStore` | The option list as a sequence of key/value entries. Names are compared as `xf86NameCmp` compares them: ASCII case, `_`, space and tab are ignored. |
| `Kernel` | The outcomes of `open`, `fstat` and `ioctl` on a device node, given as inputs. A `FileTable` class holds the process's open descriptors. |
| `ToolTypes` | The wcmType table, `checkValidType` and `wcmIsAValidType`. |
| `Validators` | The per-option value checks, as pure functions. |
| `Registry` | The tablet's shared state (`Common`) and its tool and area lists, as classes updated in place. |
| `Devices` | The device records (`WacomDevice`, `LocalDevice`) and the entry points above. |

All cited lines are in `src/wcmValidateDevice.c`.

## Model

| member | source | states |
|---|---|---|
| OptionStore.SameNameFold | src/wcmValidateDevice.c:350-353 | The name walk modelled on xf86NameCmp says two names are equal exactly when their spellings agree after ASCII case is folded and `_`, space and tab are dropped. |
| OptionStore.SameNameEquiv | src/wcmValidateDevice.c:350-353 | Naming the same option is reflexive, symmetric and transitive. |
| OptionStore.FindSpec | src/wcmValidateDevice.c:53 | An option lookup finds the first entry whose key names the option. It finds nothing exactly when no entry names it. |
| OptionStore.LookupSpec | src/wcmValidateDevice.c:53-57 | An option has a value exactly when some entry names it. |
| OptionStore.StrOption | src/wcmValidateDevice.c:53-57 | xf86CheckStrOption with a NULL default returns a string only when the option holds that string. It is NULL exactly when the option is absent or has no value. |
| OptionStore.CheckStr | src/wcmValidateDevice.c:46 | xf86CheckStrOption returns the option's string value, or the default when there is none. |
| OptionStore.CheckStrFound | src/wcmValidateDevice.c:91-96 | When the option holds a string, that string is what xf86CheckStrOption returns, whatever the default. |
| OptionStore.Replace | src/wcmValidateDevice.c:319-320 | A replace keeps the length when the option exists. Otherwise it appends one entry at the tail and keeps the rest unchanged. |
| OptionStore.ReplaceSame | src/wcmValidateDevice.c:319-320 | After a replace, the option has the new value. |
| OptionStore.ReplaceOther | src/wcmValidateDevice.c:319-320 | A replace leaves every option with another name unchanged. |
| OptionStore.ReplaceUnique | src/wcmValidateDevice.c:215-216 | A replace keeps the option names pairwise distinct. |
| OptionStore.Reversed | src/wcmValidateDevice.c:219-228 | The list built by prepending while walking has the same length as the walked list. |
| OptionStore.LookupReversed | src/wcmValidateDevice.c:219-228 | Building the list back to front keeps the names distinct and every option's value. |
| Kernel.FileTable.Open | src/wcmValidateDevice.c:99-107 | A successful open returns a descriptor that was not open and adds it to the open set. A failed open returns -1 and changes nothing. |
| Kernel.FileTable.Close | src/wcmValidateDevice.c:136-140 | Close removes the descriptor from the open set. |
| ToolTypes.TableNamesDistinct | src/wcmValidateDevice.c:148-155 | The five type names of the table are pairwise distinct. |
| ToolTypes.SupportsTypeByName | src/wcmValidateDevice.c:148-169 | A type is supported exactly when it is one of stylus, eraser, cursor, touch and pad, and the tool key of that entry is set. |
| ToolTypes.CheckValidType | src/wcmValidateDevice.c:157-169 | The accumulating loop over the whole table returns true exactly when the name is a table entry whose tool bit is set. Unknown names give false. |
| ToolTypes.IsAValidType | src/wcmValidateDevice.c:172-197 | The result is false when open or the key query fails, and otherwise checkValidType's verdict. The descriptor is closed on every path except a failed key query, where it stays open. Each successful open uses one fresh descriptor. |
| ToolTypes.ValidTypesUpToSpec | src/wcmValidateDevice.c:271-280 | The valid types among the first n entries, in table order, are exactly those valid for the node, with no name twice. |
| ToolTypes.ValidTypesMembership | src/wcmValidateDevice.c:271-280 | A type is in the list of valid types exactly when it is valid for the node. |
| ToolTypes.ValidTypesDistinct | src/wcmValidateDevice.c:271-280 | The list of valid types holds no name twice. |
| ToolTypes.FirstValidIsFirst | src/wcmValidateDevice.c:307-314 | The selected type is entry i exactly when entry i is valid and no earlier entry is. |
| ToolTypes.NoValidType | src/wcmValidateDevice.c:307-314 | No type is selected exactly when no table entry is valid. |
| ToolTypes.SelectionAndFanOutPartition | src/wcmValidateDevice.c:269-280 | The selected type followed by the fanned-out types is exactly the list of valid types. The fan-out never repeats the selected type. Without a valid type there is no fan-out. |
| ToolTypes.StylusEraserPadExample | src/wcmValidateDevice.c:148-155 | For a tablet with pen, rubber and finger keys, the stylus is selected, and the eraser and then the pad are fanned out. |
| Validators.ClampSuppress | src/wcmValidateDevice.c:414-422 | 0 stays 0. Any other value ends within [DEFAULT_SUPPRESS, MAX_SUPPRESS]. A value already in range is unchanged. Values above are capped at the maximum and values below are raised to the default. |
| Validators.ClampSuppressIdempotent | src/wcmValidateDevice.c:416-422 | Clamping twice gives the same value as clamping once. |
| Validators.PressCurve | src/wcmValidateDevice.c:446-459 | The curve changes only when four numbers were read, all in 0..100, on a device that is neither a cursor nor a touch device. Then the new curve is those numbers. |
| Validators.PressCurveKeepsRange | src/wcmValidateDevice.c:446-459 | A curve whose points are in range stays in range after any PressCurve option. |
| Validators.TvResolution | src/wcmValidateDevice.c:474-489 | The resolutions change exactly when four positive numbers were read. Then they take those numbers. |
| Validators.Isdv4Speed | src/wcmValidateDevice.c:605-617 | 9600, 19200 and 38400 become the speed. Any other value leaves the speed as it was. |
| Validators.Isdv4SpeedStaysLegal | src/wcmValidateDevice.c:605-617 | A legal speed stays legal whatever the BaudRate option says. |
| Validators.ModeAbsolute | src/wcmValidateDevice.c:348-366 | An absent Mode option leaves the absolute flag as it was. |
| Validators.ModeKeywords | src/wcmValidateDevice.c:350-366 | Any spelling of "absolute" sets the absolute flag and any spelling of "relative" clears it, for every tool. Any other value gives relative for a cursor and absolute for every other tool. |
| Validators.RotateOption | src/wcmValidateDevice.c:396-412 | A rotation is set only by CW, CCW or HALF, and never to "none". |
| Validators.RotateRoundTrip | src/wcmValidateDevice.c:400-411 | Any spelling of a rotation's keyword selects that rotation. NONE keeps the current rotation. A value that spells none of the four keywords is rejected. |
| Validators.TwinviewOption | src/wcmValidateDevice.c:623-642 | An absent Twinview option leaves the layout as it was. |
| Validators.TwinviewRoundTrip | src/wcmValidateDevice.c:624-642 | Any spelling of a layout's keyword selects that layout. The synonyms rightof and belowof select the same layouts as horizontal and vertical. A value that spells none of the seven keywords gives TV_NONE. |
| Validators.KeywordsIgnoreSpelling | src/wcmValidateDevice.c:383-406 | Rotate, Twinview, Mode and ForceDevice give the same result for two values that xf86NameCmp calls equal. |
| Validators.AsWrittenTouchClobbersPenMaxY | src/wcmValidateDevice.c:555-560 | For a touch device, the code as written overwrites the pen's maximum Y even without a MaxY option. It never sets the touch maximum Y. |
| Validators.AxisRangesKeepOtherSensor | src/wcmValidateDevice.c:547-560 | In the corrected ranges, a touch device changes only the touch ranges and any other device only the pen ranges. Absent options change nothing. |
| Registry.Common.FindTool | src/wcmValidateDevice.c:516-519 | Returns the position of the first tool with the given (typeid, serial), or the list length when there is none. |
| Registry.Common.AddArea | src/wcmValidateDevice.c:527-532 | The area is appended at the tail of that tool's area list. No other tool's areas change, and the registry invariant holds. |
| Registry.Common.AddTool | src/wcmValidateDevice.c:536-539 | The tool is appended at the tail of the tool list, and the registry invariant holds. |
| Registry.Common.Attach | src/wcmValidateDevice.c:514-541 | The registry invariant is kept: (typeid, serial) unique and every area in one tool's list. If the key is registered, the tool list is unchanged, the matched tool is adopted, and the area is appended at the tail of its list. Otherwise the new tool is appended at the tail. Existing tools keep their order and their areas. |
| Registry.Common.Register | src/wcmValidateDevice.c:508-541 | The device's tool takes the serial number, and the tool the device ends with has its (typeid, serial). The head tool leaves the tool list and every area list unchanged. Any other tool keeps the invariant and ends holding the area. If the key was registered, the tool list is unchanged and only the matched tool's list gains the area, at its tail. Otherwise the tool is appended at the tail with that one area. No other tool's areas change. |
| Devices.WacomDevice.ParseOptions | src/wcmValidateDevice.c:330-649 | The result is 0 exactly when ForceDevice is not ISDV4 or Rotate is not a known keyword. Then the later options are untouched: the filters, corners, serial numbers, tool list, every area list, sensor ranges, speed and layout keep their values. Unless ForceDevice is invalid, the rotation is given by the Rotate option (an invalid Rotate value leaves it as it was). On 1, every modelled field is given as the validators' function of the options and the old state, including the device class after ForceDevice and USB. The tool and area then join the registry in the three cases Register states. |
| Devices.WacomDevice.ParseModes | src/wcmValidateDevice.c:348-412 | Mode (a pad instead follows its core status), then ForceDevice (ISDV4 sets the device class and the Tablet PC button default), then Rotate. An invalid ForceDevice or Rotate value returns 0 and leaves the values that come after it unchanged. An invalid Rotate value also leaves the shared rotation unchanged. |
| Devices.AbsoluteAfter | src/wcmValidateDevice.c:348-372 | A pad is relative when it is a core device and absolute otherwise. Every other tool takes the Mode option's verdict. |
| Devices.ForcedClass | src/wcmValidateDevice.c:380-386 | The device class changes only when ForceDevice names ISDV4, and then it becomes the ISDV4 class. |
| Devices.UsbClassAfter | src/wcmValidateDevice.c:436-438 | The class is USB afterwards exactly when the USB option is on or it already was. It changes only when the option is on. |
| Devices.WacomDevice.ParseRest | src/wcmValidateDevice.c:414-642 | Everything wcmParseOptions does after the mode options: the filters as in ParseFilters, the corners and serial number, the registry in Register's three cases, and the limits as in ParseLimits. |
| Devices.WacomDevice.ParseFilters | src/wcmValidateDevice.c:414-489 | Suppress is clamped. The USB option can select the USB class. The pressure curve and TV resolutions follow their validators. |
| Devices.WacomDevice.ParseTail | src/wcmValidateDevice.c:496-642 | The area corners and serial number take the options (default 0). The tool and area join the registry in Register's three cases. The sensor ranges, the ISDV4 speed and the TwinView layout are set as in ParseLimits. |
| Devices.WacomDevice.ParseArea | src/wcmValidateDevice.c:496-541 | The corners and serial number default to 0 and are copied to the device's area. The device's tool has the option's serial number. The registry changes in Register's three cases: the head changes no list, a registered key gains the area, and a new key appends the tool. |
| Devices.WacomDevice.SetArea | src/wcmValidateDevice.c:496-507 | The device's corners and serial number take the options (default 0), and the area takes the same corners. |
| Devices.WacomDevice.JoinRegistry | src/wcmValidateDevice.c:508-541 | `priv->tool` becomes the tool Register leaves, with the device's (typeid, serial). The tool list and area lists change in Register's three cases. |
| Devices.WacomDevice.ParseLimits | src/wcmValidateDevice.c:547-642 | The sensor ranges follow the corrected MaxX/MaxY rule. BaudRate (default 9600) applies only when ISDV4 is forced. The TwinView layout follows its keyword mapping. |
| Devices.LocalDevice.IsDuplicate | src/wcmValidateDevice.c:87-142 | The verdicts: 0 when `_source` is empty, without opening the node; 1 when open fails; 0 when fstat fails; 4 when the device number is 0; 3 when another device claims the number; 0 otherwise. On every path the descriptor is closed and `fd` ends as -1. |
| Devices.LocalDevice.CheckOpened | src/wcmValidateDevice.c:109-134 | Once the node is open, the verdict is one of 0, 3 and 4. It follows fstat and the device number, and is 3 exactly when another device claims a non-zero number. |
| Devices.OpenedVerdict | src/wcmValidateDevice.c:109-134 | The verdict is 3 exactly when the number is readable, non-zero and claimed. It is 4 exactly when the number is 0. Otherwise it is 0. |
| Devices.CheckSource | src/wcmValidateDevice.c:42-80 | True exactly when some listed device other than this one has a Device option, a wacom driver, a non-zero device number equal to this one's, and a different `_source`. |
| Devices.LocalDevice.NeedAutoHotplug | src/wcmValidateDevice.c:293-328 | Returns 1 exactly when no type was given and `_source` is "server/hal". Otherwise it returns 0 and leaves the options and descriptors unchanged. On 1, the type is the first valid one, or none with the return still 1. The options then carry that Type, `_driver/wacom` and the stamp. Descriptors open only on a failed key query. |
| Devices.LocalDevice.HotplugOthers | src/wcmValidateDevice.c:262-282 | One request for every valid type after the first, in table order. Request k is the parent's options converted to the k-th such type. |
| Devices.LocalDevice.HotplugStep | src/wcmValidateDevice.c:273-279 | One pass of the loop. The first valid type only clears `skip`, and every later valid type adds its request. The requests so far are those for the valid types after the first, up to entry i. |
| Devices.DupConvert | src/wcmValidateDevice.c:202-230 | The prepending loop returns the options with Type replaced by the type and Name by "<name> <type>", in reverse order. |
| Devices.EditedNamesDistinct | src/wcmValidateDevice.c:215-216 | The names `Type`, `Name`, `_source` and `_wacom uniq` are pairwise different under xf86NameCmp. |
| Devices.StampedUnique | src/wcmValidateDevice.c:319-326 | The options of a hot-plugged device keep their names distinct. |
| Devices.StampedLookups | src/wcmValidateDevice.c:319-326 | A hot-plugged device's options hold its type, the source `_driver/wacom` and the stamp. |
| Devices.StampedKeepsOthers | src/wcmValidateDevice.c:319-326 | Every other option of a hot-plugged device keeps its value. |
| Devices.ConvertedLookups | src/wcmValidateDevice.c:215-228 | A request for type t has Type t and Name "<name> <t>". Every other option of the parent reaches it unchanged. |
| Devices.SiblingsShareSourceAndStamp | src/wcmValidateDevice.c:284-327 | Every device fanned out from a hot-plugged parent has the parent's source `_driver/wacom`, its stamp and its own type. |
| Devices.SiblingsNotClaimed | src/wcmValidateDevice.c:61-72 | A fanned-out device and its parent, or two siblings, never claim each other's device number, because their sources are equal. So xf86WcmCheckSource never refuses one as a duplicate of the other. |

## Left out

- Option store: the xf86 option functions are modelled by their effect on a list of key/value entries. This covers lookup, replace-or-append and the xf86NameCmp name comparison. Their allocation and the server's own option parsing are not modelled. Two edge cases of the server code may differ as a result. The server may report an empty string value as absent, while StrOption returns `Some("")`. And xf86NameCmp may compare a name that is only separators (such as `"_"`) with the empty name differently from SameName, which treats them as equal.
- xf86CollectInputOptions is taken to copy the list unchanged.
- `_wacom uniq` is an integer option in the source. The model stores the stamp as a string value.
- The clock: `currentTime.milliseconds` is an input string `stamp`, since it is nondeterministic.
- System calls: `open`, `fstat`, `ioctl(EVIOCGBIT)` and `close` are not modelled. Their outcomes are the fields of a `Node` input.
- Every probe of one device receives the same Node. So the device path is not modelled, and neither is a node that changes between calls.
- Descriptor numbers come from a counter (`FileTable.next`), not the lowest free number.
- The device list of xf86FirstLocalDevice is a sequence parameter.
- `NewInputDeviceRequest` is not modelled. wcmHotplug is represented by the request list HotplugOthers returns.
- wcmFreeInputOpts, xcalloc/xfree/strdup and the error path's frees are memory management, which has no counterpart here.
- xf86Msg logging is not modelled.
- wcmAutoProbeDevice is not modelled. It only calls xf86WcmEventAutoDevProbe, which is not part of this model.
- The parsing of the option text is not modelled. PressCurve and TVResolution arrive as the outcome of their sscanf (`Scan`). Integer and string options arrive as already-parsed values.
- The remaining options of wcmParseOptions are left out because they only copy a value into a field the modelled code never reads: `_wacom uniq`, DebugLevel, CommonDBG, Tilt, RawFilter, CursorProx, ScreenNo, KeepShape, Threshold, MaxZ, the resolutions, ButtonsOnly, TPCButton, Touch, Capacity, MMonitor, the buttons and Accel. Speed is also left out because it is floating point.
- `wcmScaling` is not modelled.
- xf86WcmSetPadCoreMode: its body is not part of this model. AbsoluteAfter follows the comment at lines 368-369 instead: a pad is relative as a core device and absolute otherwise. Whether the device is core (XI86_ALWAYS_CORE or XI86_CORE_POINTER in `local->flags`) is the input `Settings.coreDevice`.
- The COREEVENT flag is not modelled, because nothing modelled reads it.
- xf86WcmSetPressureCurve: its body is not part of this model. The setter is represented by the control points it receives.
- The device classes are the values of `DeviceClass`, not the driver's class tables.
- The key codes BTN_TOOL_* and the suppression bounds DEFAULT_SUPPRESS = 2 and MAX_SUPPRESS = 100 are taken from the driver's and the kernel's headers. Those headers are not part of this model.
- `common->min_maj` is read-only here. It is recorded when the tablet's node is opened, elsewhere in the driver.
- Registry.Common.Register: `Valid()` is not restated after the head tool takes its new serial number. As in the source, that serial number is not checked against the other tools' keys.
- Registry: the area corners are written before the registry update, as in the source. The model does not capture that a shared area object could be observed before it is linked.
- Devices.WacomDevice.ParseOptions, Devices.WacomDevice.ParseRest, Devices.WacomDevice.ParseTail and Devices.WacomDevice.ParseLimits use the corrected MaxX/MaxY rule (`AxisRanges`), not the code as written (see Findings).
- Devices.WacomDevice.ParseOptions: the method is split into ParseModes, ParseRest, ParseFilters, ParseTail, ParseArea, SetArea, JoinRegistry and ParseLimits. They run in the source's order, except that ParseTail applies the limits before the area and registry. Neither part reads what the other writes, so the final state is the same. The order of the writes within a section is not modelled.

## Findings

| source | as written | input that shows it | evidently intended | confidence | as-written member | corrected member |
|---|---|---|---|---|---|---|
| src/wcmValidateDevice.c:555-560 | For a touch device the MaxY option, defaulting to `wcmMaxTouchY`, is stored in the pen's `wcmMaxY`. | A touch device with no MaxY option on a tablet whose `wcmMaxY` differs from `wcmMaxTouchY`: the pen's maximum Y is overwritten, and the touch maximum Y is never set. | Like the MaxX branch at lines 547-552, store the option in `wcmMaxTouchY`. | medium, not executed | Validators.AsWrittenTouchClobbersPenMaxY | Validators.AxisRangesKeepOtherSensor |

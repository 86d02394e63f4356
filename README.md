# snap_control configuration core in Dafny

This project models the pure, configuration-handling core of the SNAP
F-engine control scripts:

- `src/multi_snap_config.py`: `_mac_to_int`, which turns a MAC address
  written as an integer, as `0x…` hex or as colon-separated hex pairs into an
  integer; the validation `_load_layout` applies to a parsed layout document;
  and the reachable part of `_configure_board`, which reads one board
  descriptor and returns its MAC lookup table (`macs`, IP to MAC) and its
  normalised destination records (`dests`).
- `scripts/start_snaps.py`: the top-level shape check of
  `_load_startup_config` and `_build_argv_from_yaml`, which turns the startup
  document into the argument list handed to `multi_snap_config`.

Parsed YAML is modelled as a Python value (`PyValue.Value`: None, bool, int,
float, str, list, dict as an ordered list of key/value pairs). The Python
built-ins the code relies on are written out: truthiness, `dict.get`,
`x[key]`, iteration (a list yields its items, a str its characters, a dict its
keys), `str()`, `str.strip()` with the whitespace of `str.isspace()`, and
`int()` on strings in base 10 and base 16. For `int()` that means surrounding
whitespace, an optional sign, the `0x`/`0X` prefix in base 16 and single `_`
separators between digits. `int()` skips a narrower whitespace set than
`strip()`: it leaves the separators U+001C-U+001F in place and fails on them.
The Python exceptions the code raises on malformed values of this domain
(TypeError, KeyError, AttributeError, ValueError) are error values of a
`Result`; the exceptions under "## Left out" are not modelled.

Modules:

- `Results`: `Option` and `Result`.
- `Numerals`: digit strings, their values and fixed-width rendering.
- `PyValue`: the Python values and built-ins above.
- `MacAddress`: `_mac_to_int` and the canonical `xx:xx:xx:xx:xx:xx` form.
- `MultiSnapConfig`: `_load_layout` and `_configure_board`. The loop over
  destinations is a method (`EnterDestinations`) proved against the function
  that specifies it.
- `StartSnaps`: `_load_startup_config` and `_build_argv_from_yaml`. The argument
  list is built by methods that append to it step by step, as the source
  does, and are proved against a structured command (`Command`: the layout
  path followed by flags with their values).

The MAC table does not keep the invariant one might expect of it: one entry
per IP, never overwritten with a conflicting value. The model follows the
code, which assigns `macs[ip] = …` for the source and then for every
destination in order. A later destination with the same IP therefore replaces
the earlier MAC, and a destination with the source's IP replaces the source's
MAC (`MacTableLastWins`, `BoardMacSource`). Nor does the code check that a MAC
fits in 48 bits: it keeps any integer `int()` yields, negative or larger, and
so does the model.

## Model

| member | source | states |
|---|---|---|
| MacAddress.MacToInt | src/multi_snap_config.py:63-72 | an int passes through unchanged (a bool as 0 or 1); a str is stripped and, when it starts with `0x`, parsed as base-16 `int()`, otherwise parsed after every `:` is removed; it succeeds exactly when that `int()` does, with its value; any other value has no `strip` and fails |
| MacAddress.MacPadding | src/multi_snap_config.py:69 | whitespace around a MAC string does not change its value |
| MacAddress.MacHexPrefix | src/multi_snap_config.py:70-72 | `0x` or `0X` followed by hex digits denotes the value of those digits (`0X` takes the colon path and still parses) |
| MacAddress.MacSeparator | src/multi_snap_config.py:69-72 | a separator U+001C-U+001F after a colon survives `strip()` and the colon removal, and the MAC is rejected |
| MacAddress.MacColons | src/multi_snap_config.py:72 | a string of hex digits and colons denotes the value of its digits with the colons removed |
| MacAddress.MacHexRoundTrip | src/multi_snap_config.py:70-71 | `0x` followed by the zero-padded hex rendering of n parses back to n |
| MacAddress.FormatMac | src/multi_snap_config.py:64-65 | every 48-bit value has a canonical `xx:xx:xx:xx:xx:xx` text: 17 characters, colons exactly at every third position, lower-case hex pairs between them |
| MacAddress.MacRoundTrip | src/multi_snap_config.py:72 | the canonical colon text of a 48-bit value parses back to that value |
| MacAddress.MacCanonical | src/multi_snap_config.py:72 | every well-formed `xx:xx:xx:xx:xx:xx` text parses to a 48-bit value whose canonical text is that same string |
| PyValue.PyInt | src/multi_snap_config.py:71-72 | `int(s, base)` for base 10 or 16 succeeds exactly when the text, trimmed of the whitespace `int()` skips and without its sign and prefix, is digit groups separated by single underscores |
| PyValue.PyIntSeparator | src/multi_snap_config.py:72 | a separator U+001C-U+001F before a digit makes `int()` fail, though `strip()` removes it |
| PyValue.PyIntDigits | src/multi_snap_config.py:71-72 | a plain non-empty digit string parses to its value |
| PyValue.PyIntNegative | src/multi_snap_config.py:72 | a leading `-` negates the parsed value |
| PyValue.PyIntHexPrefix | src/multi_snap_config.py:71 | in base 16 a `0x` or `0X` prefix is skipped |
| PyValue.PyIntPadding | src/multi_snap_config.py:102 | padding made of the whitespace `int()` skips (`str.isspace()` less U+001C-U+001F) does not change what `int()` yields |
| PyValue.TrimPadding | src/multi_snap_config.py:69 | `strip()`, and the trim `int()` applies, remove any padding of their whitespace set and nothing else |
| PyValue.TrimIdle | src/multi_snap_config.py:69 | a string with no whitespace of the set at either end is left unchanged by the trim |
| PyValue.Strip | src/multi_snap_config.py:69 | the stripped text neither starts nor ends with whitespace |
| PyValue.ToInt | src/multi_snap_config.py:102 | `int(v)`: an int is itself, a bool 0 or 1, a finite float is truncated toward zero (`Truncate`), a str is read as base-10 `int()` text (`PyInt`), None, lists, dicts and non-finite floats fail |
| PyValue.Truncate | src/multi_snap_config.py:102 | truncation toward zero: the result is within one of x, on the side of zero |
| PyValue.PyIntDecimal | src/multi_snap_config.py:113-115 | the decimal text of any integer parses back to it |
| PyValue.IntStrRoundTrip | src/multi_snap_config.py:113-115 | `int(str(i))`, with any whitespace `int()` skips around it, is i |
| PyValue.LookupFound | src/multi_snap_config.py:79 | a key is missing exactly when no entry has it, and a found value is stored under it |
| PyValue.LookupFirst | src/multi_snap_config.py:80-83 | the value found for a key is that of its first entry |
| MultiSnapConfig.LoadLayout | src/multi_snap_config.py:79-83 | fails with the missing-boards error exactly when the document is not a dict or lacks `boards`, with the not-a-list error exactly when `boards` is present but not a list, and otherwise returns that list |
| MultiSnapConfig.LayoutBoards | src/multi_snap_config.py:79-83 | a document whose `boards` entry holds a list loads as exactly that list, whatever other keys surround it |
| MultiSnapConfig.Subscript | src/multi_snap_config.py:93 | `x[key]` succeeds exactly on a dict holding the key, with its value |
| MultiSnapConfig.ReadSource | src/multi_snap_config.py:100-103 | a source that is not a dict fails as not subscriptable; then a missing `ip`, a `port` that `int()` rejects and a missing `mac` and a `mac` that `_mac_to_int` rejects fail in that order, and a source passing all of them reads; a source that reads has ip `str(src["ip"])`, port `int(src.get("port", 10000))` (10000 when absent) and mac `_mac_to_int(src["mac"])` |
| MultiSnapConfig.BoardSource | src/multi_snap_config.py:100-103 | a non-dict board fails as not subscriptable, one without `source` with a missing-key error, and otherwise the source is the reading of `board_def["source"]` |
| MultiSnapConfig.Destinations | src/multi_snap_config.py:105-106 | a non-dict board fails as not subscriptable, one without `destinations` with a missing-key error, a non-iterable `destinations` as not iterable, and otherwise the descriptors are what iterating it yields |
| MultiSnapConfig.ReadDest | src/multi_snap_config.py:106-116 | a destination that is not a dict fails as not subscriptable, one without `ip` with a missing-key error, then one without `mac` likewise, a `mac` that `_mac_to_int` rejects with that error, then a bad `port`, a missing or bad `start_chan` and a missing or bad `nchan` in that order; a destination passing all of them reads |
| MultiSnapConfig.QuotedPortReads | src/multi_snap_config.py:107-114 | a destination with an integer `mac` and a quoted `port` that `int()` accepts reads, with that port |
| MultiSnapConfig.QuotedDecimalPortReads | src/multi_snap_config.py:112 | the quoted decimal text of any port reads as that port |
| MultiSnapConfig.ReadDestFields | src/multi_snap_config.py:107-109 | a destination that reads carries `str()` of its `ip` and the value `_mac_to_int` gives its `mac` |
| MultiSnapConfig.ReadDestNumbers | src/multi_snap_config.py:112-114 | a destination that reads carries `int()` of its `port` (10000 when absent), `start_chan` and `nchan` |
| MultiSnapConfig.ReadEachOk | src/multi_snap_config.py:106-116 | reading a list succeeds exactly when every element reads, with the elements' readings in order |
| MultiSnapConfig.ReadEachLength | src/multi_snap_config.py:109-116 | a list that reads yields one record per element |
| MultiSnapConfig.ReadEachFirstError | src/multi_snap_config.py:106-116 | the first element that fails decides the error |
| MultiSnapConfig.DestsOf | src/multi_snap_config.py:109-116 | the records are those of the entries, in order |
| MultiSnapConfig.MacTableKeys | src/multi_snap_config.py:98-108 | the MAC table has exactly the source IP and every destination IP as keys |
| MultiSnapConfig.MacTableLastWins | src/multi_snap_config.py:108 | a destination's MAC is what the table holds for its IP unless a later destination has the same IP |
| MultiSnapConfig.MacTableSource | src/multi_snap_config.py:103 | the source's MAC stays in the table when no destination shares its IP |
| MultiSnapConfig.BoardTables | src/multi_snap_config.py:93-117 | a non-dict board fails as not subscriptable, a missing `host` and a bad `feng_id` fail first, then an error of the source, then one of the destinations; past those the result is the tables of the source with the destinations entered after it, or the first destination's error |
| MultiSnapConfig.BoardDests | src/multi_snap_config.py:105-116 | the returned `dests` has one record per destination descriptor, each the reading of that descriptor |
| MultiSnapConfig.BoardMacKeys | src/multi_snap_config.py:98-117 | the returned `macs` has exactly the source IP and the returned destination IPs as keys |
| MultiSnapConfig.BoardMacValues | src/multi_snap_config.py:108 | each destination's MAC is recorded for its IP unless a later destination reuses that IP |
| MultiSnapConfig.BoardMacSource | src/multi_snap_config.py:103 | the source MAC is recorded for the source IP unless a destination reuses that IP |
| MultiSnapConfig.ReadDestValue | src/multi_snap_config.py:107-116 | a destination written out with its canonical MAC text reads back as the same record and MAC |
| MultiSnapConfig.ReadSourceValue | src/multi_snap_config.py:100-103 | a source written out with its canonical MAC text reads back as the same source |
| MultiSnapConfig.ReadDestsValue | src/multi_snap_config.py:105-116 | a list of written-out destinations reads back as exactly those destinations |
| MultiSnapConfig.BoardTablesValue | src/multi_snap_config.py:93-117 | a board descriptor written out from a source and destinations configures to exactly their tables |
| MultiSnapConfig.DestValues | src/multi_snap_config.py:105-116 | writing out destinations gives one descriptor per destination, in order |
| MultiSnapConfig.ConfigureBoard | src/multi_snap_config.py:93-117 | returns exactly the tables or the error the board descriptor specifies |
| MultiSnapConfig.EnterDestinations | src/multi_snap_config.py:105-117 | the loop over destinations yields exactly the tables of the source followed by the destinations, or the first destination's error |
| StartSnaps.LoadStartupConfig | scripts/start_snaps.py:23-28 | a falsy document is the empty mapping, a mapping is itself, and anything else truthy fails |
| StartSnaps.StartupCommand | scripts/start_snaps.py:31-76 | builds exactly when `layout_yaml` is truthy, `ips` is falsy or iterable and `options` is falsy or a dict; fails with the missing-layout error exactly when `layout_yaml` is falsy, with the not-iterable error exactly when `ips` is truthy but not iterable, with the not-a-mapping error exactly when `options` is truthy but not a dict; a command that builds starts with `str(layout_yaml)` |
| StartSnaps.Strs | scripts/start_snaps.py:44 | `str()` of every IP, in order |
| StartSnaps.BuildArgv | scripts/start_snaps.py:31-76 | the argument list built step by step is exactly the flat form of the command, or its error |
| StartSnaps.ExtendIps | scripts/start_snaps.py:41-44 | appends `--ip` and the IPs when `ips` is truthy, nothing when falsy, and fails when it is truthy but not iterable |
| StartSnaps.ExtendStrs | scripts/start_snaps.py:44 | the loop appends `str()` of each element in order |
| StartSnaps.ExtendOptions | scripts/start_snaps.py:49-74 | appends exactly the flat form of the option flags |
| StartSnaps.ExtendWhenNotNone | scripts/start_snaps.py:49-51 | appends the flag and `str()` of the value when it is not None |
| StartSnaps.ExtendWhenTruthy | scripts/start_snaps.py:53-55 | appends the flag and `str()` of the value when it is truthy |
| StartSnaps.ExtendWhenSet | scripts/start_snaps.py:57-58 | appends the bare flag when the value is truthy |
| StartSnaps.TokensConcat | scripts/start_snaps.py:31-76 | flattening commutes with concatenating flag lists |
| StartSnaps.ArgvAppend | scripts/start_snaps.py:36-76 | the argument list is the layout path followed by the flattened flags of each part |
| StartSnaps.OptionBlocks | scripts/start_snaps.py:49-74 | each option contributes at most one flag, and only its own |
| StartSnaps.FlagsInOrder | scripts/start_snaps.py:41-74 | the flags of every command appear in the fixed order `--ip`, `--nchan-packet`, `--log-level`, `--programmed`, `--test-mode`, `--fft_shift`, `--eq_coeffs`, `--adc_gain`, each at most once |
| StartSnaps.OptionArgsAscending | scripts/start_snaps.py:49-74 | the option flags come in that order and never include `--ip` |
| StartSnaps.OptionFlags | scripts/start_snaps.py:47-74 | each option flag carries `str()` of its value when the source's condition holds (not None for the four value flags, truthy for `--log-level` and `--test-mode`), `--programmed` appears bare when truthy, and a flag is absent otherwise |
| StartSnaps.OptionArgOf | scripts/start_snaps.py:49-74 | the same, stated on the options block alone |
| StartSnaps.IpFlag | scripts/start_snaps.py:41-44 | `--ip` is present exactly when `ips` is truthy, with `str()` of each IP |
| StartSnaps.IpTokens | scripts/start_snaps.py:36-47 | with truthy `ips` the list is the layout path, `--ip`, the IPs and then the option flags |
| StartSnaps.NoOptions | scripts/start_snaps.py:36-47 | with a falsy `options` the list holds exactly the layout path and any IP flag, so none of the option flags appears |
| StartSnaps.ZeroIsPassed | scripts/start_snaps.py:49-74 | a value flag whose option is 0 is still passed, as `0` |

## Left out

- YAML parsing and the file I/O of `_load_layout` and `_load_startup_config`: the model starts from the parsed document.
- The hardware part of `_configure_board` (`src/multi_snap_config.py:119-141`): it cannot be reached after the `return` at line 117.
- `_parse_args`, `main`, logging, the per-board loop, the leveler, the PPS synchronisation and the dispatcher: they are I/O and hardware orchestration, not this configuration core.
- The unused parameter `nchan_packet` and the unused `fpgfile` lookup of `_configure_board`: `dict.get` cannot fail, so they have no effect on the result.
- The key order of the returned `macs` dictionary: it is modelled as a map.
- Duplicate keys in a YAML mapping: the loader keeps distinct keys, and lookup takes the first entry.
- Float text: `str()` of a float is carried with the float rather than computed by Python's shortest round-trip algorithm.
- Quoting and escaping in `repr()` of strings nested in lists and dicts that are passed to `str()`.
- Digits outside ASCII in `int()`: Python accepts other Unicode decimal digits; the model accepts only `0-9`, `a-f`, `A-F`.
- PyValue.PyInt: Python's limit on integer string conversion (ValueError for `int()` of a decimal string of more than 4300 digits, `sys.get_int_max_str_digits`) is not modelled; the model behaves as if the limit were disabled.
- PyValue.PyIntDecimal: for the same reason it also covers integers whose decimal text exceeds that limit, where Python's `str()` raises.
- PyValue.IntStrRoundTrip: likewise holds without the digit limit, which Python would enforce on both `str(i)` and `int()`.
- Values outside the modelled domain: `yaml.safe_load` also yields dates and datetimes (`ip: 2024-01-01`), bytes (`!!binary`), sets (`!!set`) and lists of pairs (`!!omap`, `!!pairs`); `Value` cannot represent them, so what `str()`, `int()` and `_mac_to_int` do on them is not modelled.
- Whether `multi_snap_config`'s own argument parser accepts the produced list: the model states the list, not how it is parsed.

# rtlamr2mqtt add-on start-up, modelled in Dafny

rtlamr2mqtt bridges utility-meter readings decoded by `rtl_tcp` and `rtlamr`
into an MQTT broker. Its add-on entry point, `addon/main.py`, holds the
configuration and parameter logic that runs before any radio or broker I/O.
This project models that logic and proves what it promises:

- **`merge_config`**: for each default section, a shallow union of the default
  and user keys, with the user's values winning. `meters` is taken verbatim
  from the user file, or is `{}`. User sections not in the defaults are
  dropped. The model is a function (`Config.Merge`) with a key-by-key
  reference definition (`Config.IsMergeOf`), plus the imperative loop of the
  source (`Config.MergeConfig`), which is proved equal to it.
- **`load_config`**: the extension check (`path[path.rfind('.'):]` must be
  `.yaml`, `.yml`, `.json` or `.js`), the built-in defaults, and how loading
  fails.
- **`setup_log`**: the level name is compared upper-cased with INFO, DEBUG
  and NONE. NONE selects CRITICAL. Any other string is passed on unchanged,
  and `logger.setLevel` then rejects it unless it is one of `logging`'s
  registered names, spelled in capitals (`WARNING` passes, `warning` raises).
- **`get_config_from_supervisor` and the overlay in `setup`**: the shape of
  the broker coordinates the Home Assistant Supervisor returns, and
  `main_config['mqtt'].update(...)`.
- **`reset_usb_device`**: a `"bus:dev"` descriptor becomes
  `/dev/bus/usb/BBB/DDD`, and the reset request is
  `USBDEVFS_RESET = ord('U') << 8 | 20 = 21780`, Linux's `_IO('U', 20)`.
- **`mqtt_client_setup`**: the status topic `<base_topic>/status`, the will
  (`Off`) and online (`On`) messages on it, `cert_reqs` chosen from
  `tls_insecure`, credentials only when both `user` and `password` exist, and
  the debug listing of the section, which redacts the password.
- **`setup`**: the configuration path (`argv[1]` when exactly one argument is
  given, else `/data/options.json`), and the order of the steps above.

Python values are `PyValues.Value`: strings, integers, booleans, None and
string-keyed mappings. Python dictionaries become Dafny maps. A Python
exception that the source does not catch becomes a `Failure` carrying the
reason. File contents, the environment, the Supervisor's reply, the
device-file test and the ioctl's return value are parameters.

The model follows the code as written, including these behaviours a reader
might not expect:

- The Supervisor's reply also overrides `tls_enabled` (from its `ssl` field),
  not only the broker's host, port and credentials.
- Insecure TLS selects `CERT_NONE`, which turns off certificate verification
  entirely, not only the hostname check.
- The default configuration path is `/data/options.json` only. No other path
  is tried.
- A missing `mqtt.base_topic` is not reported as a configuration error. It
  raises KeyError in `mqtt_client_setup`, and the defaults do not supply one
  (`Startup.BaseTopicMustComeFromFile`).
- Line 114 lacks a colon and `ssl` is never imported. The model gives both
  lines their evident meaning: a status check, and the `ssl` constants.
- `from signal import signal` (line 8) binds the function, so
  `signal.SIGTERM` in `setup()` (line 229) raises AttributeError before
  `argv` is read. `Startup.Setup` models the `setup()` that gets past the
  signal registration, as with lines 114 and `ssl`.

## Model

| member | source | states |
|---|---|---|
| `Config.Merge` | addon/main.py:37-48 | succeeds exactly when every default section that the user file also has is a mapping there; the result then satisfies the key-by-key merge definition `IsMergeOf` |
| `Config.MergeConfig` | addon/main.py:37-48 | the source's loop over the default sections, which fills `merged` one section at a time, returns exactly `Merge(defaults, user)` |
| `Config.MergeOfIsUnique` | addon/main.py:37-48 | the key-by-key definition fixes the merged configuration uniquely |
| `Config.MergeKeepsDefaultsOnly` | addon/main.py:39-47 | every default section and every default key is in the result; a user-only section other than `meters` is not |
| `Config.MergeUserWins` | addon/main.py:40-41 | a merged section's keys are the union of default and user keys; the user's value wins where it exists, otherwise the default stays |
| `Config.MergeAbsentSection` | addon/main.py:42-43 | a default section the user file lacks is the default section unchanged |
| `Config.MergeMetersVerbatim` | addon/main.py:44-47 | `meters` is the user's value verbatim, or `{}`, and is never merged with a default |
| `Config.MergeExampleSections` | addon/main.py:67-84 | a file with `sleep_for: 60` and `host: 10.0.0.5` keeps the default port 1883 and log level `debug` |
| `Config.MergeExampleMeters` | addon/main.py:44-47 | that file's merged `meters` holds only its one meter, and the untouched `custom_parameters` section is the default |
| `Config.FormatOf` | addon/main.py:85-94 | a parser is chosen exactly when the file type is one of `.yaml`, `.yml`, `.json`, `.js`; it is YAML exactly for `.yaml`/`.yml` and JSON exactly for `.json`/`.js` |
| `Config.FileType` | addon/main.py:85 | with a dot in the path, the file type is a suffix starting with `.` that holds no other dot; without one, it is the last character, or empty |
| `Config.FileTypeIsLastSuffix` | addon/main.py:85 | with a dot, the file type is the suffix that starts at the last dot |
| `Config.NoDotIsRefused` | addon/main.py:85-88 | without a dot, the file type is the last character (or empty) and the path is refused |
| `Config.AcceptedIff` | addon/main.py:85-88 | a path is accepted if and only if the suffix from its last dot is one of the four extensions |
| `Config.LoadConfig` | addon/main.py:55-100 | a refused extension fails with the file type; an unreadable file fails; otherwise the result is the merge of the defaults with the file, which always has the default log level, host, port, keepalive and TLS keys |
| `Config.MetersOnlyMerge` | addon/main.py:37-48 | merging a file that only lists meters succeeds, with every default section unchanged and the meters verbatim |
| `Config.LoadIsMerge` | addon/main.py:85-100 | with an accepted extension, loading a parsed mapping is merging it with the defaults |
| `Config.MetersOnlyFileLoads` | addon/main.py:67-100 | a file that only lists meters loads, with every default section unchanged and its meters verbatim |
| `Config.ConfigPath` | addon/main.py:238 | the path is `argv[1]` when exactly one argument is given; otherwise it is `/data/options.json`, which passes the extension check as JSON |
| `Logging.LevelFor` | addon/main.py:20-26 | INFO, DEBUG and NONE in any letter case give INFO, DEBUG and CRITICAL; the level is numeric for exactly those names; any other name is passed on unchanged |
| `Logging.CaseInsensitive` | addon/main.py:20-25 | two recognised names that upper-case alike select the same level |
| `Logging.NamedLevels` | addon/main.py:20-25 | `none` and `NONE` give CRITICAL, `debug` gives DEBUG, `Info` gives INFO, and `warning` passes through |
| `Logging.AcceptedNames` | addon/main.py:20-26 | `setLevel` accepts the resulting level exactly when `setup_log` recognises the name or the name is a registered level name as spelled |
| `Logging.WarningSpelling` | addon/main.py:20-26 | `warning` is passed on and rejected by `setLevel`; `WARNING` is accepted |
| `PyValues.FalsyValues` | addon/main.py:180 | `PyValues.Truthy`, Python's `if v:`, is false exactly for `""`, `0`, `False`, `None` and `{}` |
| `PyValues.Render` | addon/main.py:175 | `str(v)` of a string is the string itself; of an integer, text that `int()` reads back as that integer; of a boolean `True`/`False`; of None `None` |
| `PyValues.ToInt` | addon/main.py:117 | `int(v)` reads an integer as itself, a boolean as 1 or 0, a string by `Text.ParseInt`, and fails on None and mappings; a non-boolean it reads is read back from its `str()` |
| `PyValues.Union` | addon/main.py:41 | `{**a, **b}` and `a.update(b)`: the keys of both; the value of `b` wherever `b` has the key |
| `PyValues.UnionEmpty` | addon/main.py:251 | updating with an empty mapping changes nothing |
| `SupervisorMqtt.FromSupervisor` | addon/main.py:106-124 | the result has only broker keys; a failed fetch gives `{}`; a port that `int()` rejects leaves `host` alone; otherwise host, port, user, password and tls_enabled come from the reply |
| `SupervisorMqtt.Overlay` | addon/main.py:248-251 | the overlaid section has the section's keys plus those the Supervisor returned |
| `SupervisorMqtt.OverlayKeepsOtherKeys` | addon/main.py:251 | a key the Supervisor did not return keeps its value, and no other key appears |
| `SupervisorMqtt.OverlayTakesSupervisorValues` | addon/main.py:251 | every key the Supervisor returned is a broker key and takes the Supervisor's value |
| `SupervisorMqtt.FailedFetchChangesNothing` | addon/main.py:108-124 | when the fetch fails, the overlay leaves the section identical |
| `UsbReset.UsbDevFsReset` | addon/main.py:139 | the request code is 21780 (0x5514), equal to Linux's `_IO('U', 20)` |
| `UsbReset.DevicePath` | addon/main.py:134-136 | nothing is done exactly when there is no descriptor or it has no `:`; more than one `:` fails the two-field unpacking |
| `UsbReset.DevicePathReadsFields` | addon/main.py:135-136 | a resolved descriptor is two colon-free integer fields around its one `:`, and the path is formatted from those two numbers |
| `UsbReset.FieldsResolve` | addon/main.py:134-136 | conversely, any descriptor of two colon-free fields that `int()` reads, with leading zeros or a sign, resolves to the path formatted from those two numbers |
| `UsbReset.FieldRejected` | addon/main.py:135-136 | a one-colon descriptor with a field `int()` rejects fails with the ValueError of the first such field |
| `UsbReset.DescriptorResolves` | addon/main.py:134-136 | a descriptor `"B:D"` written with `str()` of two integers resolves to `/dev/bus/usb/` + `{:03d}` of B + `/` + `{:03d}` of D |
| `UsbReset.ExampleDescriptor` | addon/main.py:128-136 | the documented usage `reset_usb_device('001:002')` opens `/dev/bus/usb/001/002` |
| `UsbReset.DevicePathOf` | addon/main.py:136 | the device path starts with `/dev/bus/usb/` and has at least 20 characters; `DevicePathFields` pins its fields |
| `UsbReset.DevicePathFields` | addon/main.py:136 | for numbers below 1000 the path is 20 characters, with three-digit fields that read back as the bus and device numbers |
| `UsbReset.ResetUsbDevice` | addon/main.py:131-145 | a reset happens only for a resolved character device; it uses request 21780 and succeeds exactly when the ioctl returns 0; a missing device is reported with the resolved path |
| `Text.RFind` | addon/main.py:85 | `rfind` gives -1 exactly when the character is absent; otherwise the index of its last occurrence |
| `Text.SliceFrom` | addon/main.py:85 | Python's `s[i:]`: a suffix of `s`, of length `|s| - i` for `0 <= i <= |s|` and `-i` for a negative `i` within range; all of `s` below that range, empty above it |
| `Text.Split` | addon/main.py:135 | `split(':')` gives at least one part and no part holds a `:`; `SplitJoin` relates it to the string |
| `Text.SplitJoin` | addon/main.py:135 | `split(':')` yields one part more than there are colons, and joining the parts gives back the string |
| `Text.SplitAfterPrefix` | addon/main.py:135 | a colon-free first field is the first part of `split(':')` |
| `Text.Format03d` | addon/main.py:136 | `format(n, '03d')` has at least three characters, all digits for `n >= 0`, a `-` then digits for `n < 0` |
| `Text.Format03dRoundTrip` | addon/main.py:136 | `int(format(n, '03d')) == n` for every integer; numbers below 1000 give exactly three digits |
| `Text.IntToStringRoundTrip` | addon/main.py:136 | `int(str(i)) == i` for every integer |
| `Text.ParseInt` | addon/main.py:136 | `int(s)` succeeds exactly on a non-empty run of digits, optionally after one `+` or `-`; the result is non-positive exactly where a `-` leads, otherwise non-negative |
| `Text.Upper` | addon/main.py:20-25 | `s.upper()` keeps the length, lowers each `a`-`z` by 32 to its capital, keeps every other character, and leaves no lower-case ASCII letter |
| `MqttSetup.LwtTopic` | addon/main.py:174-175 | the status topic ends in `/status`; for a string base topic it is `base_topic + "/status"` |
| `MqttSetup.CertReqsFor` | addon/main.py:182 | certificates are not required exactly when `tls_insecure` is truthy |
| `MqttSetup.TlsFor` | addon/main.py:180-184 | with `tls_enabled` falsy there is no TLS; otherwise TLS is set up exactly when the four TLS keys exist, with `tls_ca`, `tls_cert`, `tls_keyfile`, the `cert_reqs` from `tls_insecure` and `tls_insecure` itself; a failure names a missing key |
| `MqttSetup.ClientSetup` | addon/main.py:172-218 | fails exactly when `base_topic`, `tls_enabled` or (with TLS on) one of the four TLS keys is missing, and then names the first missing key in the order they are read; on success the section gains `lwt_topic`, the client id is `rtlamr2mqtt`, the will is `Off` and the online marker `On` on that topic with QoS 1, credentials are set exactly when both `user` and `password` exist, TLS is set up exactly when `tls_enabled` is truthy and then receives `tls_ca`, `tls_cert`, `tls_keyfile`, the `cert_reqs` of `tls_insecure` and `tls_insecure`, and the reconnect delays are 1 and 120 |
| `MqttSetup.TlsFailureIsFirstMissing` | addon/main.py:180-183 | a missing TLS key is the first of the read keys that is missing |
| `MqttSetup.WillAndOnlineShareTopic` | addon/main.py:175-218 | the last-will and online messages use the same topic, `lwt_topic`, and have different payloads |
| `MqttSetup.ParameterLine` | addon/main.py:203-207 | the `password` line is the fixed redacted line; any other key's line is the prefix, the upper-cased key, ` => ` and the rendered value in quotes |
| `MqttSetup.PasswordIsRedacted` | addon/main.py:203-205 | the password's line is the same redacted line, whatever the password |
| `MqttSetup.OtherValuesAreShown` | addon/main.py:206-207 | any other key's line shows the key upper-cased and ends with the value in quotes |
| `MqttSetup.Listing` | addon/main.py:203-207 | the listing has exactly one line per key of the iteration order |
| `MqttSetup.ListingAt` | addon/main.py:203-207 | line `i` of the listing is the line for the `i`-th key and its value |
| `MqttSetup.ListingRedactsAndCovers` | addon/main.py:203-207 | every `password` line is the redacted line, and every key of the section has its line, showing its value |
| `MqttSetup.ListParameters` | addon/main.py:203-207 | the loop over the parameters emits exactly `Listing`, line by line in iteration order |
| `Startup.MqttBeforeClient` | addon/main.py:248-253 | the section given to the client setup is the file's section, overlaid with the Supervisor's reply only when running as an add-on |
| `Startup.SetupOutcome` | addon/main.py:227-255 | a successful setup loaded its configuration, follows the token for the add-on flag and uses client id `rtlamr2mqtt`; the four `Setup*` lemmas state the rest of its outcome |
| `Startup.Setup` | addon/main.py:227-255 | the step-by-step setup ends exactly as `SetupOutcome` says |
| `Startup.SetupConfigFailure` | addon/main.py:237-240 | setup stops with the configuration error exactly when loading the configuration fails |
| `Startup.SetupLogLevel` | addon/main.py:241-242 | after a successful load, setup fails on the log level exactly when `general.log_level` is not text or names a level `setLevel` rejects; on success the add-on flag follows the token and the level is `LevelFor(log_level)`, one `setLevel` accepts |
| `Startup.SetupSucceeds` | addon/main.py:245-255 | on success the client parameters are those derived from the (overlaid) `mqtt` section; the configuration keeps its sections, every other section is as loaded, and `mqtt` is the overlaid section plus `lwt_topic` |
| `Startup.SetupMissingKey` | addon/main.py:251-253 | a KeyError during setup is exactly the first key the client setup finds missing |
| `Startup.BaseTopicMustComeFromFile` | addon/main.py:174 | if the file sets no `mqtt.base_topic`, setup fails on it, whatever the Supervisor returns |
| `Startup.DefaultMqttLacksBaseTopic` | addon/main.py:74-79 | the default `mqtt` section alone fails the client setup on `base_topic` |

## Left out

- Creating, connecting and running the paho MQTT client (`connect_async`, `loop_start`, `publish`), its callbacks and its thread: a foreign library plus concurrency. The model stops at the parameters handed to the client. `int(port)` and `int(keepalive)` at connect time are therefore not modelled.
- The HTTP request to the Supervisor: network I/O. Only the `data` member of its reply is a parameter, and None stands for a request that raised or a status that was not OK.
- `os.path.exists`, `os.stat`/`S_ISCHR`, opening the device file and the `ioctl` call: OS I/O. Their outcomes are the parameters `isCharDevice` and `ioctlResult`. An `open` that raises is not modelled.
- YAML/JSON parsing and `sys.exit`: library calls and process control. The parsed document is a parameter, and an exit is a `Failure`.
- `start_rtl_subprocess`, which refers to undefined names; signal handling, which as written raises AttributeError at line 229 (see above); the `while True: pass` loop: process control with no modellable logic.
- Logger construction, handlers and formatters: only the level choice and whether `setLevel` accepts it are modelled. `logging.addLevelName` could register further names; the model uses the eight names `logging` registers itself.
- rtlamr2mqtt-addon/rtlamr2mqtt_v2.py is not part of this model: it holds only a constant defaults dictionary and a `main` that refers to an undefined `argv`.
- Dictionary order: Dafny maps have none. Merged sections and the Supervisor overlay are compared key by key, and `MqttSetup.ListParameters` takes the iteration order as a parameter.
- Floats, lists and non-string mapping keys in the configuration file are not in `PyValues.Value`.
- `PyValues.Render`: a non-empty mapping renders as `{...}`, not as Python's repr, because the model's maps have no key order.
- `Text.ParseInt`: accepts only an optional sign followed by ASCII digits. Python's `int()` also accepts surrounding whitespace, `_` between digits and non-ASCII digits.
- `Text.Upper`: upper-cases ASCII letters only. Python's `str.upper` maps other characters too (for example `ı` to `I`).
- `Config.Merge`: on a non-mapping section, Python raises at the first such section in iteration order. The model's failure does not say which section it was.

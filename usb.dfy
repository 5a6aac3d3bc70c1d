/**
 * The path and request-code logic of `reset_usb_device`: a "bus:dev"
 * descriptor becomes `/dev/bus/usb/BBB/DDD`, and the reset is the
 * usbdevfs ioctl `USBDEVFS_RESET`. The file checks and the ioctl itself are
 * parameters.
 */
module UsbReset {
  import opened Wrappers
  import Text

  /**
   * Linux `_IOC(dir, type, nr, size)`: the number in bits 0-7, the type in
   * bits 8-15, the argument size in bits 16-29 and the direction in 30-31.
   */
  function Ioc(dir: bv32, kind: bv32, nr: bv32, size: bv32): bv32
    requires dir < 4 && kind < 256 && nr < 256 && size < 0x4000
  {
    (dir << 30) | (size << 16) | (kind << 8) | nr
  }

  /** `ord('U') << (4*2) | 20`: equals Linux's `_IO('U', 20)`, 0x5514. */
  function UsbDevFsReset(): (code: int)
    ensures code == 21780 && code == 0x5514
    ensures code == Ioc(0, 'U' as int as bv32, 20, 0) as int
  {
    ((('U' as int as bv32) << 8) | 20) as int
  }

  datatype UsbError =
    | WrongFieldCount(count: nat)   // `busnum, devnum = usbdev.split(':')` raises
    | NotAnInteger(field: string)   // `int(busnum)` or `int(devnum)` raises

  /** "/dev/bus/usb/{:03d}/{:03d}".format(bus, dev). */
  function DevicePathOf(bus: int, dev: int): (p: string)
    ensures |p| >= 20 && p[..13] == "/dev/bus/usb/"
  {
    "/dev/bus/usb/" + Text.Format03d(bus) + "/" + Text.Format03d(dev)
  }

  /**
   * The device file `reset_usb_device` opens for a descriptor: Success(None)
   * when there is no descriptor or it has no ':' (nothing is done).
   */
  function DevicePath(usbdev: Option<string>): (r: Result<Option<string>, UsbError>)
    ensures usbdev.None? || ':' !in usbdev.value ==> r == Success(None)
    ensures usbdev.Some? && ':' in usbdev.value && Text.Count(usbdev.value, ':') != 1 ==>
      r == Failure(WrongFieldCount(Text.Count(usbdev.value, ':') + 1))
    ensures r == Success(None) ==> usbdev.None? || ':' !in usbdev.value
  {
    if usbdev.None? || ':' !in usbdev.value then Success(None)
    else
      var parts := Text.Split(usbdev.value, ':');
      Text.SplitJoin(usbdev.value, ':');
      if |parts| != 2 then Failure(WrongFieldCount(|parts|))
      else
        match (Text.ParseInt(parts[0]), Text.ParseInt(parts[1]))
        case (None, _) => Failure(NotAnInteger(parts[0]))
        case (Some(_), None) => Failure(NotAnInteger(parts[1]))
        case (Some(b), Some(d)) => Success(Some(DevicePathOf(b, d)))
  }

  lemma NoColonInNumber(i: int)
    ensures ':' !in Text.IntToString(i)
  {
    var s := Text.IntToString(i);
    if i < 0 {
      assert s == "-" + Text.Digits(-i);
    }
  }

  /**
   * A descriptor that resolves to a path is two colon-free fields around its
   * one ':', each read by `int()`, and the path is formatted from those numbers.
   */
  lemma DevicePathReadsFields(s: string)
    requires DevicePath(Some(s)).Success? && DevicePath(Some(s)).value.Some?
    ensures exists i ::
              && 0 <= i < |s| && s[i] == ':' && ':' !in s[..i] && ':' !in s[i + 1..]
              && Text.ParseInt(s[..i]).Some? && Text.ParseInt(s[i + 1..]).Some?
              && DevicePath(Some(s)).value.value
                 == DevicePathOf(Text.ParseInt(s[..i]).value, Text.ParseInt(s[i + 1..]).value)
  {
    var parts := Text.Split(s, ':');
    Text.SplitJoin(s, ':');
    assert |parts| == 2;
    var i := |parts[0]|;
    assert s == parts[0] + [':'] + parts[1];
    assert s[..i] == parts[0] && s[i + 1..] == parts[1];
  }

  /**
   * Conversely, any descriptor of two colon-free fields that `int()` reads
   * (leading zeros and signs included) resolves to the path of those numbers.
   */
  lemma FieldsResolve(a: string, b: string)
    requires ':' !in a && ':' !in b && Text.ParseInt(a).Some? && Text.ParseInt(b).Some?
    ensures DevicePath(Some(a + ":" + b)) == Success(Some(DevicePathOf(Text.ParseInt(a).value, Text.ParseInt(b).value)))
  {
    var s := a + ":" + b;
    assert s == a + [':'] + b;
    assert s[|a|] == ':';
    Text.SplitAfterPrefix(a, ':', b);
    Text.SplitNoSeparator(b, ':');
    assert Text.Split(s, ':') == [a, b];
  }

  /** A descriptor of two colon-free fields one of which `int()` rejects fails with that field's ValueError. */
  lemma FieldRejected(a: string, b: string)
    requires ':' !in a && ':' !in b && (Text.ParseInt(a).None? || Text.ParseInt(b).None?)
    ensures DevicePath(Some(a + ":" + b)) == Failure(NotAnInteger(if Text.ParseInt(a).None? then a else b))
  {
    var s := a + ":" + b;
    assert s == a + [':'] + b;
    assert s[|a|] == ':';
    Text.SplitAfterPrefix(a, ':', b);
    Text.SplitNoSeparator(b, ':');
    assert Text.Split(s, ':') == [a, b];
  }

  /** A descriptor "B:D" written from two integers resolves to the zero-padded path of B and D. */
  lemma DescriptorResolves(b: int, d: int)
    ensures DevicePath(Some(Text.IntToString(b) + ":" + Text.IntToString(d))) == Success(Some(DevicePathOf(b, d)))
  {
    NoColonInNumber(b);
    NoColonInNumber(d);
    Text.IntToStringRoundTrip(b);
    Text.IntToStringRoundTrip(d);
    FieldsResolve(Text.IntToString(b), Text.IntToString(d));
  }

  /** The usage example `reset_usb_device('001:002')` opens `/dev/bus/usb/001/002`. */
  lemma ExampleDescriptor()
    ensures DevicePath(Some("001:002")) == Success(Some("/dev/bus/usb/001/002"))
  {
    OneDigitField(1);
    OneDigitField(2);
    var bus, dev := "00" + [Text.DigitChar(1)], "00" + [Text.DigitChar(2)];
    assert bus == "001" && dev == "002";
    FieldsResolve(bus, dev);
    assert DevicePathOf(1, 2) == "/dev/bus/usb/" + bus + "/" + dev == "/dev/bus/usb/001/002";
    assert bus + ":" + dev == "001:002";
  }

  /** A one-digit number is the three-character field "00n", which `int()` reads back. */
  lemma OneDigitField(n: nat)
    requires 1 <= n < 10
    ensures var f := "00" + [Text.DigitChar(n)];
      && Text.Format03d(n) == f && ':' !in f && Text.ParseInt(f) == Some(n)
  {
    var f := "00" + [Text.DigitChar(n)];
    assert Text.Digits(n) == [Text.DigitChar(n)];
    assert Text.Zeros(2) == "00";
    assert f[..2] == "00" && f[..2][..1] == "0" && f[..2][..1][..0] == [];
    assert Text.DigitsValue("00") == 0;
    assert Text.AllDigits(f) && Text.DigitsValue(f) == n;
  }

  /** For bus and device numbers below 1000 the path has fixed fields that read back as the numbers. */
  lemma DevicePathFields(b: int, d: int)
    requires 0 <= b < 1000 && 0 <= d < 1000
    ensures var p := DevicePathOf(b, d);
      && |p| == 20 && p[..13] == "/dev/bus/usb/" && p[16] == '/'
      && Text.ParseInt(p[13..16]) == Some(b) && Text.ParseInt(p[17..]) == Some(d)
  {
    Text.Format03dRoundTrip(b);
    Text.Format03dRoundTrip(d);
    var p := DevicePathOf(b, d);
    assert p[13..16] == Text.Format03d(b);
    assert p[17..] == Text.Format03d(d);
  }

  /** What `reset_usb_device` does. */
  datatype UsbAction =
    | NoAction                                          // no descriptor, or no ':' in it
    | NotPresent(path: string)                          // not an existing character device
    | Reset(path: string, request: int, succeeded: bool)

  /**
   * `reset_usb_device(usbdev)`. `isCharDevice` stands for
   * `os.path.exists(path) and S_ISCHR(os.stat(path).st_mode)` and
   * `ioctlResult` for the value the ioctl returns.
   */
  function ResetUsbDevice(usbdev: Option<string>, isCharDevice: bool, ioctlResult: int): (r: Result<UsbAction, UsbError>)
    ensures DevicePath(usbdev).Failure? <==> r.Failure?
    ensures r.Success? && r.value.NoAction? <==> DevicePath(usbdev) == Success(None)
    ensures r.Success? && r.value.Reset? ==>
      && isCharDevice
      && Some(r.value.path) == DevicePath(usbdev).value
      && r.value.request == 21780
      && (r.value.succeeded <==> ioctlResult == 0)
    ensures r.Success? && r.value.NotPresent? ==> !isCharDevice && Some(r.value.path) == DevicePath(usbdev).value
  {
    match DevicePath(usbdev)
    case Failure(e) => Failure(e)
    case Success(None) => Success(NoAction)
    case Success(Some(path)) =>
      if !isCharDevice then Success(NotPresent(path))
      else Success(Reset(path, UsbDevFsReset(), ioctlResult == 0))
  }
}

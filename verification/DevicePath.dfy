/** Partition names: parsing the number at the end of a device path and naming the other slot. */
module DevicePath {
  import opened Wrappers

  const SLOT_A_INDEX: nat := 2
  const SLOT_B_INDEX: nat := 3
  const U32_MAX: nat := 0xFFFF_FFFF

  datatype PartitionInfo = PartitionInfo(device: string, index: nat)

  predicate IsDigit(c: char) { '0' <= c <= '9' }

  predicate AllDigits(s: string) { forall i | 0 <= i < |s| :: IsDigit(s[i]) }

  predicate NoDigits(s: string) { forall i | 0 <= i < |s| :: !IsDigit(s[i]) }

  /** The device path without the digits at its end: the disk the partition is on. */
  function DiskOf(device: string): string {
    if device == "" || !IsDigit(device[|device| - 1]) then device else DiskOf(device[..|device| - 1])
  }

  /** The longest run of digits at the end. */
  function TrailingDigits(device: string): string {
    if device == "" || !IsDigit(device[|device| - 1]) then ""
    else TrailingDigits(device[..|device| - 1]) + [device[|device| - 1]]
  }

  /** The characters before the first digit. */
  function LeadingNonDigits(device: string): string {
    if device == "" || IsDigit(device[0]) then "" else [device[0]] + LeadingNonDigits(device[1..])
  }

  function DecimalValue(s: string): nat
    requires AllDigits(s)
  {
    if s == "" then 0 else 10 * DecimalValue(s[..|s| - 1]) + (s[|s| - 1] as int - '0' as int)
  }

  function ParseU32(s: string): Option<nat> {
    if s == "" || !AllDigits(s) || DecimalValue(s) > U32_MAX then None else Some(DecimalValue(s))
  }

  function Print(n: nat): string {
    var digit := [('0' as int + n % 10) as char];
    if n < 10 then digit else Print(n / 10) + digit
  }

  function ParseDevicePath(device: string): Result<PartitionInfo, string> {
    match ParseU32(TrailingDigits(device))
    case Some(index) => Ok(PartitionInfo(device, index))
    case None => Err("Cannot parse partition number from: " + device)
  }

  function OtherIndex(index: nat): nat {
    if index == SLOT_A_INDEX then SLOT_B_INDEX else SLOT_A_INDEX
  }

  function InactivePartition(active: PartitionInfo): PartitionInfo {
    var index := OtherIndex(active.index);
    PartitionInfo(LeadingNonDigits(active.device) + Print(index), index)
  }

  // ----- Parsing -----

  lemma {:induction false} SplitAtTrailingDigits(device: string)
    ensures DiskOf(device) + TrailingDigits(device) == device
    ensures AllDigits(TrailingDigits(device))
    ensures DiskOf(device) == "" || !IsDigit(DiskOf(device)[|DiskOf(device)| - 1])
  {
    if device != "" && IsDigit(device[|device| - 1]) {
      SplitAtTrailingDigits(device[..|device| - 1]);
      assert device == device[..|device| - 1] + [device[|device| - 1]];
    }
  }

  /** The split into a disk and trailing digits is the only one. */
  lemma {:induction false} SplitIsUnique(disk: string, digits: string)
    requires disk == "" || !IsDigit(disk[|disk| - 1])
    requires AllDigits(digits)
    ensures DiskOf(disk + digits) == disk && TrailingDigits(disk + digits) == digits
  {
    if digits == "" {
      assert disk + digits == disk;
    } else {
      var n := |digits| - 1;
      SplitIsUnique(disk, digits[..n]);
      assert (disk + digits)[..|disk + digits| - 1] == disk + digits[..n];
      assert digits == digits[..n] + [digits[n]];
    }
  }

  lemma {:induction false} PrintThenValue(n: nat)
    ensures Print(n) != "" && AllDigits(Print(n)) && DecimalValue(Print(n)) == n
  {
    if n >= 10 {
      PrintThenValue(n / 10);
      assert Print(n)[..|Print(n)| - 1] == Print(n / 10);
    } else {
      assert Print(n)[..|Print(n)| - 1] == "";
    }
  }

  /** Printing then parsing returns the number, for exactly the numbers that fit 32 bits. */
  lemma PrintThenParse(n: nat)
    ensures ParseU32(Print(n)) == if n <= U32_MAX then Some(n) else None
  {
    PrintThenValue(n);
  }

  lemma {:induction false} LeadingIsPrefix(device: string)
    ensures NoDigits(LeadingNonDigits(device))
    ensures LeadingNonDigits(device) <= device
    ensures LeadingNonDigits(device) == device || IsDigit(device[|LeadingNonDigits(device)|])
  {
    if device != "" && !IsDigit(device[0]) {
      LeadingIsPrefix(device[1..]);
      assert device == [device[0]] + device[1..];
    }
  }

  lemma {:induction false} LeadingStopsAtDigits(disk: string, digits: string)
    requires NoDigits(disk) && AllDigits(digits)
    ensures LeadingNonDigits(disk + digits) == disk
  {
    if disk != "" {
      LeadingStopsAtDigits(disk[1..], digits);
      assert (disk + digits)[1..] == disk[1..] + digits;
    }
  }

  /** Read from the front: a digit counts as many times as there are numbers with as many digits as follow it. */
  lemma {:induction false} PlaceValue(digit: char, rest: string)
    requires '0' <= digit <= '9' && AllDigits(rest)
    ensures AllDigits([digit] + rest)
    ensures DecimalValue([digit] + rest) == (digit as int - '0' as int) * Pow10(|rest|) + DecimalValue(rest)
  {
    var all := [digit] + rest;
    if rest != "" {
      var n := |rest| - 1;
      assert all[..|all| - 1] == [digit] + rest[..n];
      PlaceValue(digit, rest[..n]);
    } else {
      assert all[..|all| - 1] == "";
    }
  }

  function Pow10(k: nat): nat {
    if k == 0 then 1 else 10 * Pow10(k - 1)
  }

  /** What is parsed is the number at the end of the name, if there is one and it fits 32 bits. */
  lemma ParsesTrailingNumber(disk: string, digits: string)
    requires disk == "" || !('0' <= disk[|disk| - 1] <= '9')
    requires forall i | 0 <= i < |digits| :: '0' <= digits[i] <= '9'
    ensures ParseDevicePath(disk + digits).Ok? <==> digits != "" && DecimalValue(digits) < 4_294_967_296
    ensures ParseDevicePath(disk + digits).Ok? ==>
              ParseDevicePath(disk + digits).value == PartitionInfo(disk + digits, DecimalValue(digits))
  {
    SplitIsUnique(disk, digits);
  }

  // ----- The inactive partition -----

  /** The inactive partition's name is well formed, and it is on the disk named by the leading non-digits. */
  lemma InactiveParsesBack(active: PartitionInfo)
    ensures ParseDevicePath(InactivePartition(active).device) == Ok(InactivePartition(active))
    ensures DiskOf(InactivePartition(active).device) == LeadingNonDigits(active.device)
  {
    var base, index := LeadingNonDigits(active.device), OtherIndex(active.index);
    LeadingIsPrefix(active.device);
    PrintThenValue(index);
    PrintThenParse(index);
    SplitIsUnique(base, Print(index));
  }

  /** Whatever device string is accepted as active, the partition to be written is a different one. */
  lemma InactiveIsOther(device: string)
    requires ParseDevicePath(device).Ok?
    ensures var active := ParseDevicePath(device).value;
      && InactivePartition(active).index != active.index
      && InactivePartition(active).device != device
  {
    InactiveParsesBack(ParseDevicePath(device).value);
  }

  /** Slots 2 and 3 are each other's inactive partition, and 2 is that of any other. */
  lemma SlotsAreTwoAndThree(disk: string, index: nat)
    requires forall i | 0 <= i < |disk| :: !('0' <= disk[i] <= '9')
    ensures InactivePartition(PartitionInfo(disk + Print(index), index))
            == if index == 2 then PartitionInfo(disk + "3", 3) else PartitionInfo(disk + "2", 2)
  {
    PrintThenValue(index);
    LeadingStopsAtDigits(disk, Print(index));
    assert Print(2) == "2" && Print(3) == "3";
  }

  /** It is on the same disk if and only if the device name has no digit before the partition number. */
  lemma SameDiskIff(device: string)
    requires ParseDevicePath(device).Ok?
    ensures DiskOf(InactivePartition(ParseDevicePath(device).value).device) == DiskOf(device) <==>
              NoDigits(DiskOf(device))
  {
    InactiveParsesBack(ParseDevicePath(device).value);
    LeadingIsPrefix(device);
    SplitAtTrailingDigits(device);
    if NoDigits(DiskOf(device)) {
      LeadingStopsAtDigits(DiskOf(device), TrailingDigits(device));
    }
  }

  /** So an NVMe partition is paired with a device of another name altogether. */
  lemma NvmeLeavesItsDisk()
    ensures ParseDevicePath("/dev/nvme0n1p3") == Ok(PartitionInfo("/dev/nvme0n1p3", 3))
    ensures DiskOf(InactivePartition(PartitionInfo("/dev/nvme0n1p3", 3)).device) != DiskOf("/dev/nvme0n1p3")
  {
    var disk := "/dev/nvme0n1p";
    assert disk + "3" == "/dev/nvme0n1p3";
    SplitIsUnique(disk, "3");
    assert Print(3) == "3";
    PrintThenParse(3);
    assert IsDigit(disk[9]);
    SameDiskIff("/dev/nvme0n1p3");
  }
}

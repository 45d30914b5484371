/** Pixel formats the renderer uploads, and their size in bytes per pixel. */
module Formats {
  /** A `VkFormat`: the five formats the renderer supports by name, and
      `OtherFormat` standing for every remaining format value. */
  datatype Format =
    | B8G8R8A8Unorm
    | R4G4B4A4UnormPack16
    | B4G4R4A4UnormPack16
    | R5G6B5UnormPack16
    | R8Unorm
    | OtherFormat

  /** The formats the size lookup knows; any other is a fatal programming error. */
  predicate IsSupported(f: Format) {
    !f.OtherFormat?
  }

  /** Bytes per pixel of a supported format (`vulkan_format_to_bpp`). An
      unsupported format logs an error and aborts the process, so callers
      must only pass supported ones. */
  function FormatToBpp(f: Format): (bpp: nat)
    requires IsSupported(f)
    ensures bpp in {1, 2, 4}
    ensures bpp == 4 <==> f == B8G8R8A8Unorm
    ensures bpp == 2 <==> f in {R4G4B4A4UnormPack16, B4G4R4A4UnormPack16, R5G6B5UnormPack16}
    ensures bpp == 1 <==> f == R8Unorm
  {
    match f
    case B8G8R8A8Unorm => 4
    case R4G4B4A4UnormPack16 => 2
    case B4G4R4A4UnormPack16 => 2
    case R5G6B5UnormPack16 => 2
    case R8Unorm => 1
  }

  /** Bit widths of the channels a supported format's name spells out
      (B8G8R8A8 has four 8-bit channels, R5G6B5 three of 5, 6 and 5 bits, ...). */
  function ChannelBits(f: Format): seq<nat>
    requires IsSupported(f)
  {
    match f
    case B8G8R8A8Unorm => [8, 8, 8, 8]
    case R4G4B4A4UnormPack16 => [4, 4, 4, 4]
    case B4G4R4A4UnormPack16 => [4, 4, 4, 4]
    case R5G6B5UnormPack16 => [5, 6, 5]
    case R8Unorm => [8]
  }

  function Sum(s: seq<nat>): nat {
    if s == [] then 0 else s[0] + Sum(s[1..])
  }

  lemma SumCons(x: nat, s: seq<nat>)
    ensures Sum([x] + s) == x + Sum(s)
  {
    assert ([x] + s)[1..] == s;
  }

  /** The table agrees with the formats' channel layouts: a pixel is exactly
      as many bytes as its channels have bits, divided by eight. */
  lemma BppMatchesChannelBits(f: Format)
    requires IsSupported(f)
    ensures FormatToBpp(f) * 8 == Sum(ChannelBits(f))
  {
    match f
    case B8G8R8A8Unorm =>
      SumCons(8, [8, 8, 8]); SumCons(8, [8, 8]); SumCons(8, [8]); SumCons(8, []);
      assert [8] + [8, 8, 8] == [8, 8, 8, 8];
    case R4G4B4A4UnormPack16 =>
      SumCons(4, [4, 4, 4]); SumCons(4, [4, 4]); SumCons(4, [4]); SumCons(4, []);
      assert [4] + [4, 4, 4] == [4, 4, 4, 4];
    case B4G4R4A4UnormPack16 =>
      SumCons(4, [4, 4, 4]); SumCons(4, [4, 4]); SumCons(4, [4]); SumCons(4, []);
      assert [4] + [4, 4, 4] == [4, 4, 4, 4];
    case R5G6B5UnormPack16 =>
      SumCons(5, [6, 5]); SumCons(6, [5]); SumCons(5, []);
      assert [5] + [6, 5] == [5, 6, 5];
    case R8Unorm =>
      SumCons(8, []);
  }
}

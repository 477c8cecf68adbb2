/** The link options of HYDRA: HOPT_* of hydracom/hydra.h as a record of flags. */
module HydraOptions {

  datatype Options = Options(
    xonxoff: bool, telenet: bool, ctlchrs: bool, highctl: bool, highbit: bool,
    canbrk: bool, canasc: bool, canuue: bool, crc32: bool, device: bool, fpt: bool)

  /** HTXI_OPTIONS and HDEF_OPTIONS. */
  const NONE := Options(false, false, false, false, false, false, false, false, false, false, false)
  /** HCAN_OPTIONS. */
  const CAN := Options(true, true, true, true, true, false, true, true, true, true, false)
  /** HNEC_OPTIONS. */
  const NECESSARY := Options(true, true, true, true, true, true, false, false, false, false, false)
  /** HUNN_OPTIONS. */
  const UNNECESSARY := Options(false, false, false, false, false, false, true, true, true, true, false)
  /** HRXI_OPTIONS. */
  const RX_INITIAL := Options(true, true, true, true, true, false, false, false, false, false, false)

  function Or(a: Options, b: Options): Options {
    Options(a.xonxoff || b.xonxoff, a.telenet || b.telenet, a.ctlchrs || b.ctlchrs, a.highctl || b.highctl,
            a.highbit || b.highbit, a.canbrk || b.canbrk, a.canasc || b.canasc, a.canuue || b.canuue,
            a.crc32 || b.crc32, a.device || b.device, a.fpt || b.fpt)
  }

  function And(a: Options, b: Options): Options {
    Options(a.xonxoff && b.xonxoff, a.telenet && b.telenet, a.ctlchrs && b.ctlchrs, a.highctl && b.highctl,
            a.highbit && b.highbit, a.canbrk && b.canbrk, a.canasc && b.canasc, a.canuue && b.canuue,
            a.crc32 && b.crc32, a.device && b.device, a.fpt && b.fpt)
  }

  function Not(a: Options): Options {
    Options(!a.xonxoff, !a.telenet, !a.ctlchrs, !a.highctl, !a.highbit, !a.canbrk, !a.canasc, !a.canuue,
            !a.crc32, !a.device, !a.fpt)
  }

  function Bit(b: bool, weight: nat): nat { if b then weight else 0 }

  /** The bit map as a number: the program compares bit maps with `<`. */
  function Value(a: Options): nat {
    Bit(a.xonxoff, 0x001) + Bit(a.telenet, 0x002) + Bit(a.ctlchrs, 0x004) + Bit(a.highctl, 0x008) +
    Bit(a.highbit, 0x010) + Bit(a.canbrk, 0x020) + Bit(a.canasc, 0x040) + Bit(a.canuue, 0x080) +
    Bit(a.crc32, 0x100) + Bit(a.device, 0x200) + Bit(a.fpt, 0x400)
  }
}

/** The checks of ZMODEM (ddz/crctab.h, ddz/crctab.c, ddz/zm.c).

    The CRC-16 shifts left, so it has a table and an update of its own; the
    CRC-32 uses the same generator as HYDRA's, with a constant table.  Both
    constant tables are checked against the shift steps entry by entry. */
module ZmCrc {
  import opened Crc

  const CRCTAB_0: seq<bv16> := [0x0000, 0x1021, 0x2042, 0x3063, 0x4084, 0x50a5, 0x60c6, 0x70e7,
    0x8108, 0x9129, 0xa14a, 0xb16b, 0xc18c, 0xd1ad, 0xe1ce, 0xf1ef]
  const CRCTAB_1: seq<bv16> := [0x1231, 0x0210, 0x3273, 0x2252, 0x52b5, 0x4294, 0x72f7, 0x62d6,
    0x9339, 0x8318, 0xb37b, 0xa35a, 0xd3bd, 0xc39c, 0xf3ff, 0xe3de]
  const CRCTAB_2: seq<bv16> := [0x2462, 0x3443, 0x0420, 0x1401, 0x64e6, 0x74c7, 0x44a4, 0x5485,
    0xa56a, 0xb54b, 0x8528, 0x9509, 0xe5ee, 0xf5cf, 0xc5ac, 0xd58d]
  const CRCTAB_3: seq<bv16> := [0x3653, 0x2672, 0x1611, 0x0630, 0x76d7, 0x66f6, 0x5695, 0x46b4,
    0xb75b, 0xa77a, 0x9719, 0x8738, 0xf7df, 0xe7fe, 0xd79d, 0xc7bc]
  const CRCTAB_4: seq<bv16> := [0x48c4, 0x58e5, 0x6886, 0x78a7, 0x0840, 0x1861, 0x2802, 0x3823,
    0xc9cc, 0xd9ed, 0xe98e, 0xf9af, 0x8948, 0x9969, 0xa90a, 0xb92b]
  const CRCTAB_5: seq<bv16> := [0x5af5, 0x4ad4, 0x7ab7, 0x6a96, 0x1a71, 0x0a50, 0x3a33, 0x2a12,
    0xdbfd, 0xcbdc, 0xfbbf, 0xeb9e, 0x9b79, 0x8b58, 0xbb3b, 0xab1a]
  const CRCTAB_6: seq<bv16> := [0x6ca6, 0x7c87, 0x4ce4, 0x5cc5, 0x2c22, 0x3c03, 0x0c60, 0x1c41,
    0xedae, 0xfd8f, 0xcdec, 0xddcd, 0xad2a, 0xbd0b, 0x8d68, 0x9d49]
  const CRCTAB_7: seq<bv16> := [0x7e97, 0x6eb6, 0x5ed5, 0x4ef4, 0x3e13, 0x2e32, 0x1e51, 0x0e70,
    0xff9f, 0xefbe, 0xdfdd, 0xcffc, 0xbf1b, 0xaf3a, 0x9f59, 0x8f78]
  const CRCTAB_8: seq<bv16> := [0x9188, 0x81a9, 0xb1ca, 0xa1eb, 0xd10c, 0xc12d, 0xf14e, 0xe16f,
    0x1080, 0x00a1, 0x30c2, 0x20e3, 0x5004, 0x4025, 0x7046, 0x6067]
  const CRCTAB_9: seq<bv16> := [0x83b9, 0x9398, 0xa3fb, 0xb3da, 0xc33d, 0xd31c, 0xe37f, 0xf35e,
    0x02b1, 0x1290, 0x22f3, 0x32d2, 0x4235, 0x5214, 0x6277, 0x7256]
  const CRCTAB_A: seq<bv16> := [0xb5ea, 0xa5cb, 0x95a8, 0x8589, 0xf56e, 0xe54f, 0xd52c, 0xc50d,
    0x34e2, 0x24c3, 0x14a0, 0x0481, 0x7466, 0x6447, 0x5424, 0x4405]
  const CRCTAB_B: seq<bv16> := [0xa7db, 0xb7fa, 0x8799, 0x97b8, 0xe75f, 0xf77e, 0xc71d, 0xd73c,
    0x26d3, 0x36f2, 0x0691, 0x16b0, 0x6657, 0x7676, 0x4615, 0x5634]
  const CRCTAB_C: seq<bv16> := [0xd94c, 0xc96d, 0xf90e, 0xe92f, 0x99c8, 0x89e9, 0xb98a, 0xa9ab,
    0x5844, 0x4865, 0x7806, 0x6827, 0x18c0, 0x08e1, 0x3882, 0x28a3]
  const CRCTAB_D: seq<bv16> := [0xcb7d, 0xdb5c, 0xeb3f, 0xfb1e, 0x8bf9, 0x9bd8, 0xabbb, 0xbb9a,
    0x4a75, 0x5a54, 0x6a37, 0x7a16, 0x0af1, 0x1ad0, 0x2ab3, 0x3a92]
  const CRCTAB_E: seq<bv16> := [0xfd2e, 0xed0f, 0xdd6c, 0xcd4d, 0xbdaa, 0xad8b, 0x9de8, 0x8dc9,
    0x7c26, 0x6c07, 0x5c64, 0x4c45, 0x3ca2, 0x2c83, 0x1ce0, 0x0cc1]
  const CRCTAB_F: seq<bv16> := [0xef1f, 0xff3e, 0xcf5d, 0xdf7c, 0xaf9b, 0xbfba, 0x8fd9, 0x9ff8,
    0x6e17, 0x7e36, 0x4e55, 0x5e74, 0x2e93, 0x3eb2, 0x0ed1, 0x1ef0]
  const CR3TAB_0: seq<bv32> :=
    [0x00000000, 0x77073096, 0xee0e612c, 0x990951ba, 0x076dc419, 0x706af48f, 0xe963a535, 0x9e6495a3,
    0x0edb8832, 0x79dcb8a4, 0xe0d5e91e, 0x97d2d988, 0x09b64c2b, 0x7eb17cbd, 0xe7b82d07, 0x90bf1d91]
  const CR3TAB_1: seq<bv32> :=
    [0x1db71064, 0x6ab020f2, 0xf3b97148, 0x84be41de, 0x1adad47d, 0x6ddde4eb, 0xf4d4b551, 0x83d385c7,
    0x136c9856, 0x646ba8c0, 0xfd62f97a, 0x8a65c9ec, 0x14015c4f, 0x63066cd9, 0xfa0f3d63, 0x8d080df5]
  const CR3TAB_2: seq<bv32> :=
    [0x3b6e20c8, 0x4c69105e, 0xd56041e4, 0xa2677172, 0x3c03e4d1, 0x4b04d447, 0xd20d85fd, 0xa50ab56b,
    0x35b5a8fa, 0x42b2986c, 0xdbbbc9d6, 0xacbcf940, 0x32d86ce3, 0x45df5c75, 0xdcd60dcf, 0xabd13d59]
  const CR3TAB_3: seq<bv32> :=
    [0x26d930ac, 0x51de003a, 0xc8d75180, 0xbfd06116, 0x21b4f4b5, 0x56b3c423, 0xcfba9599, 0xb8bda50f,
    0x2802b89e, 0x5f058808, 0xc60cd9b2, 0xb10be924, 0x2f6f7c87, 0x58684c11, 0xc1611dab, 0xb6662d3d]
  const CR3TAB_4: seq<bv32> :=
    [0x76dc4190, 0x01db7106, 0x98d220bc, 0xefd5102a, 0x71b18589, 0x06b6b51f, 0x9fbfe4a5, 0xe8b8d433,
    0x7807c9a2, 0x0f00f934, 0x9609a88e, 0xe10e9818, 0x7f6a0dbb, 0x086d3d2d, 0x91646c97, 0xe6635c01]
  const CR3TAB_5: seq<bv32> :=
    [0x6b6b51f4, 0x1c6c6162, 0x856530d8, 0xf262004e, 0x6c0695ed, 0x1b01a57b, 0x8208f4c1, 0xf50fc457,
    0x65b0d9c6, 0x12b7e950, 0x8bbeb8ea, 0xfcb9887c, 0x62dd1ddf, 0x15da2d49, 0x8cd37cf3, 0xfbd44c65]
  const CR3TAB_6: seq<bv32> :=
    [0x4db26158, 0x3ab551ce, 0xa3bc0074, 0xd4bb30e2, 0x4adfa541, 0x3dd895d7, 0xa4d1c46d, 0xd3d6f4fb,
    0x4369e96a, 0x346ed9fc, 0xad678846, 0xda60b8d0, 0x44042d73, 0x33031de5, 0xaa0a4c5f, 0xdd0d7cc9]
  const CR3TAB_7: seq<bv32> :=
    [0x5005713c, 0x270241aa, 0xbe0b1010, 0xc90c2086, 0x5768b525, 0x206f85b3, 0xb966d409, 0xce61e49f,
    0x5edef90e, 0x29d9c998, 0xb0d09822, 0xc7d7a8b4, 0x59b33d17, 0x2eb40d81, 0xb7bd5c3b, 0xc0ba6cad]
  const CR3TAB_8: seq<bv32> :=
    [0xedb88320, 0x9abfb3b6, 0x03b6e20c, 0x74b1d29a, 0xead54739, 0x9dd277af, 0x04db2615, 0x73dc1683,
    0xe3630b12, 0x94643b84, 0x0d6d6a3e, 0x7a6a5aa8, 0xe40ecf0b, 0x9309ff9d, 0x0a00ae27, 0x7d079eb1]
  const CR3TAB_9: seq<bv32> :=
    [0xf00f9344, 0x8708a3d2, 0x1e01f268, 0x6906c2fe, 0xf762575d, 0x806567cb, 0x196c3671, 0x6e6b06e7,
    0xfed41b76, 0x89d32be0, 0x10da7a5a, 0x67dd4acc, 0xf9b9df6f, 0x8ebeeff9, 0x17b7be43, 0x60b08ed5]
  const CR3TAB_A: seq<bv32> :=
    [0xd6d6a3e8, 0xa1d1937e, 0x38d8c2c4, 0x4fdff252, 0xd1bb67f1, 0xa6bc5767, 0x3fb506dd, 0x48b2364b,
    0xd80d2bda, 0xaf0a1b4c, 0x36034af6, 0x41047a60, 0xdf60efc3, 0xa867df55, 0x316e8eef, 0x4669be79]
  const CR3TAB_B: seq<bv32> :=
    [0xcb61b38c, 0xbc66831a, 0x256fd2a0, 0x5268e236, 0xcc0c7795, 0xbb0b4703, 0x220216b9, 0x5505262f,
    0xc5ba3bbe, 0xb2bd0b28, 0x2bb45a92, 0x5cb36a04, 0xc2d7ffa7, 0xb5d0cf31, 0x2cd99e8b, 0x5bdeae1d]
  const CR3TAB_C: seq<bv32> :=
    [0x9b64c2b0, 0xec63f226, 0x756aa39c, 0x026d930a, 0x9c0906a9, 0xeb0e363f, 0x72076785, 0x05005713,
    0x95bf4a82, 0xe2b87a14, 0x7bb12bae, 0x0cb61b38, 0x92d28e9b, 0xe5d5be0d, 0x7cdcefb7, 0x0bdbdf21]
  const CR3TAB_D: seq<bv32> :=
    [0x86d3d2d4, 0xf1d4e242, 0x68ddb3f8, 0x1fda836e, 0x81be16cd, 0xf6b9265b, 0x6fb077e1, 0x18b74777,
    0x88085ae6, 0xff0f6a70, 0x66063bca, 0x11010b5c, 0x8f659eff, 0xf862ae69, 0x616bffd3, 0x166ccf45]
  const CR3TAB_E: seq<bv32> :=
    [0xa00ae278, 0xd70dd2ee, 0x4e048354, 0x3903b3c2, 0xa7672661, 0xd06016f7, 0x4969474d, 0x3e6e77db,
    0xaed16a4a, 0xd9d65adc, 0x40df0b66, 0x37d83bf0, 0xa9bcae53, 0xdebb9ec5, 0x47b2cf7f, 0x30b5ffe9]
  const CR3TAB_F: seq<bv32> :=
    [0xbdbdf21c, 0xcabac28a, 0x53b39330, 0x24b4a3a6, 0xbad03605, 0xcdd70693, 0x54de5729, 0x23d967bf,
    0xb3667a2e, 0xc4614ab8, 0x5d681b02, 0x2a6f2b94, 0xb40bbe37, 0xc30c8ea1, 0x5a05df1b, 0x2d02ef8d]

  // ----- the constant tables are shift steps of their index -----------------

  const POLYL: bv16 := 0x1021

  function ShiftL(x: bv16): bv16 {
    if x & 0x8000 == 0x8000 then (x << 1) ^ POLYL else x << 1
  }

  function EightL(x: bv16): bv16 {
    ShiftL(ShiftL(ShiftL(ShiftL(ShiftL(ShiftL(ShiftL(ShiftL(x))))))))
  }

  function EightR(x: bv32): bv32 {
    Shift32(Shift32(Shift32(Shift32(Shift32(Shift32(Shift32(Shift32(x))))))))
  }

  /** The entry at row `hi` and column `lo`. */
  function Entry16(hi: byte, lo: byte): bv16 { EightL(((hi as bv16) << 12) | ((lo as bv16) << 8)) }

  function Entry32(hi: byte, lo: byte): bv32 { EightR(((hi as bv32) << 4) | (lo as bv32)) }

  ghost predicate Row16(row: seq<bv16>, hi: byte) {
    && |row| == 16
    && row[0] == Entry16(hi, 0) && row[1] == Entry16(hi, 1) && row[2] == Entry16(hi, 2) && row[3] == Entry16(hi, 3)
    && row[4] == Entry16(hi, 4) && row[5] == Entry16(hi, 5) && row[6] == Entry16(hi, 6) && row[7] == Entry16(hi, 7)
    && row[8] == Entry16(hi, 8) && row[9] == Entry16(hi, 9) && row[10] == Entry16(hi, 10) && row[11] == Entry16(hi, 11)
    && row[12] == Entry16(hi, 12) && row[13] == Entry16(hi, 13) && row[14] == Entry16(hi, 14)
      && row[15] == Entry16(hi, 15)
  }

  ghost predicate Row32(row: seq<bv32>, hi: byte) {
    && |row| == 16
    && row[0] == Entry32(hi, 0) && row[1] == Entry32(hi, 1) && row[2] == Entry32(hi, 2) && row[3] == Entry32(hi, 3)
    && row[4] == Entry32(hi, 4) && row[5] == Entry32(hi, 5) && row[6] == Entry32(hi, 6) && row[7] == Entry32(hi, 7)
    && row[8] == Entry32(hi, 8) && row[9] == Entry32(hi, 9) && row[10] == Entry32(hi, 10) && row[11] == Entry32(hi, 11)
    && row[12] == Entry32(hi, 12) && row[13] == Entry32(hi, 13) && row[14] == Entry32(hi, 14)
      && row[15] == Entry32(hi, 15)
  }

  lemma CrcRow0()
    ensures Row16(CRCTAB_0, 0)
  {
  }

  lemma Cr3Row0()
    ensures Row32(CR3TAB_0, 0)
  {
  }

  lemma CrcRow1()
    ensures Row16(CRCTAB_1, 1)
  {
  }

  lemma Cr3Row1()
    ensures Row32(CR3TAB_1, 1)
  {
  }

  lemma CrcRow2()
    ensures Row16(CRCTAB_2, 2)
  {
  }

  lemma Cr3Row2()
    ensures Row32(CR3TAB_2, 2)
  {
  }

  lemma CrcRow3()
    ensures Row16(CRCTAB_3, 3)
  {
  }

  lemma Cr3Row3()
    ensures Row32(CR3TAB_3, 3)
  {
  }

  lemma CrcRow4()
    ensures Row16(CRCTAB_4, 4)
  {
  }

  lemma Cr3Row4()
    ensures Row32(CR3TAB_4, 4)
  {
  }

  lemma CrcRow5()
    ensures Row16(CRCTAB_5, 5)
  {
  }

  lemma Cr3Row5()
    ensures Row32(CR3TAB_5, 5)
  {
  }

  lemma CrcRow6()
    ensures Row16(CRCTAB_6, 6)
  {
  }

  lemma Cr3Row6()
    ensures Row32(CR3TAB_6, 6)
  {
  }

  lemma CrcRow7()
    ensures Row16(CRCTAB_7, 7)
  {
  }

  lemma Cr3Row7()
    ensures Row32(CR3TAB_7, 7)
  {
  }

  lemma CrcRow8()
    ensures Row16(CRCTAB_8, 8)
  {
  }

  lemma Cr3Row8()
    ensures Row32(CR3TAB_8, 8)
  {
  }

  lemma CrcRow9()
    ensures Row16(CRCTAB_9, 9)
  {
  }

  lemma Cr3Row9()
    ensures Row32(CR3TAB_9, 9)
  {
  }

  lemma CrcRowA()
    ensures Row16(CRCTAB_A, 10)
  {
  }

  lemma Cr3RowA()
    ensures Row32(CR3TAB_A, 10)
  {
  }

  lemma CrcRowB()
    ensures Row16(CRCTAB_B, 11)
  {
  }

  lemma Cr3RowB()
    ensures Row32(CR3TAB_B, 11)
  {
  }

  lemma CrcRowC()
    ensures Row16(CRCTAB_C, 12)
  {
  }

  lemma Cr3RowC()
    ensures Row32(CR3TAB_C, 12)
  {
  }

  lemma CrcRowD()
    ensures Row16(CRCTAB_D, 13)
  {
  }

  lemma Cr3RowD()
    ensures Row32(CR3TAB_D, 13)
  {
  }

  lemma CrcRowE()
    ensures Row16(CRCTAB_E, 14)
  {
  }

  lemma Cr3RowE()
    ensures Row32(CR3TAB_E, 14)
  {
  }

  lemma CrcRowF()
    ensures Row16(CRCTAB_F, 15)
  {
  }

  lemma Cr3RowF()
    ensures Row32(CR3TAB_F, 15)
  {
  }

  // ----- the tables as they are looked up -------------------------------------

  /** Sixteen consecutive entries of crctab. */
  function CrcRow(hi: byte): seq<bv16> {
    if hi == 0 then CRCTAB_0
    else if hi == 1 then CRCTAB_1
    else if hi == 2 then CRCTAB_2
    else if hi == 3 then CRCTAB_3
    else if hi == 4 then CRCTAB_4
    else if hi == 5 then CRCTAB_5
    else if hi == 6 then CRCTAB_6
    else if hi == 7 then CRCTAB_7
    else if hi == 8 then CRCTAB_8
    else if hi == 9 then CRCTAB_9
    else if hi == 10 then CRCTAB_A
    else if hi == 11 then CRCTAB_B
    else if hi == 12 then CRCTAB_C
    else if hi == 13 then CRCTAB_D
    else if hi == 14 then CRCTAB_E
    else CRCTAB_F
  }

  /** Sixteen consecutive entries of cr3tab. */
  function Cr3Row(hi: byte): seq<bv32> {
    if hi == 0 then CR3TAB_0
    else if hi == 1 then CR3TAB_1
    else if hi == 2 then CR3TAB_2
    else if hi == 3 then CR3TAB_3
    else if hi == 4 then CR3TAB_4
    else if hi == 5 then CR3TAB_5
    else if hi == 6 then CR3TAB_6
    else if hi == 7 then CR3TAB_7
    else if hi == 8 then CR3TAB_8
    else if hi == 9 then CR3TAB_9
    else if hi == 10 then CR3TAB_A
    else if hi == 11 then CR3TAB_B
    else if hi == 12 then CR3TAB_C
    else if hi == 13 then CR3TAB_D
    else if hi == 14 then CR3TAB_E
    else CR3TAB_F
  }

  lemma CrcRowFilled(hi: byte)
    requires hi < 16
    ensures Row16(CrcRow(hi), hi)
  {
    hide Row16;
    if hi == 0 {
      CrcRow0();
    } else if hi == 1 {
      CrcRow1();
    } else if hi == 2 {
      CrcRow2();
    } else if hi == 3 {
      CrcRow3();
    } else if hi == 4 {
      CrcRow4();
    } else if hi == 5 {
      CrcRow5();
    } else if hi == 6 {
      CrcRow6();
    } else if hi == 7 {
      CrcRow7();
    } else if hi == 8 {
      CrcRow8();
    } else if hi == 9 {
      CrcRow9();
    } else if hi == 10 {
      CrcRowA();
    } else if hi == 11 {
      CrcRowB();
    } else if hi == 12 {
      CrcRowC();
    } else if hi == 13 {
      CrcRowD();
    } else if hi == 14 {
      CrcRowE();
    } else {
      CrcRowF();
    }
  }

  lemma Cr3RowFilled(hi: byte)
    requires hi < 16
    ensures Row32(Cr3Row(hi), hi)
  {
    hide Row32;
    if hi == 0 {
      Cr3Row0();
    } else if hi == 1 {
      Cr3Row1();
    } else if hi == 2 {
      Cr3Row2();
    } else if hi == 3 {
      Cr3Row3();
    } else if hi == 4 {
      Cr3Row4();
    } else if hi == 5 {
      Cr3Row5();
    } else if hi == 6 {
      Cr3Row6();
    } else if hi == 7 {
      Cr3Row7();
    } else if hi == 8 {
      Cr3Row8();
    } else if hi == 9 {
      Cr3Row9();
    } else if hi == 10 {
      Cr3RowA();
    } else if hi == 11 {
      Cr3RowB();
    } else if hi == 12 {
      Cr3RowC();
    } else if hi == 13 {
      Cr3RowD();
    } else if hi == 14 {
      Cr3RowE();
    } else {
      Cr3RowF();
    }
  }

  /** `lo` is the bit pattern of the number `k`. */
  ghost predicate Nibble(lo: byte, k: nat) {
    match k
    case 0 => lo == 0
    case 1 => lo == 1
    case 2 => lo == 2
    case 3 => lo == 3
    case 4 => lo == 4
    case 5 => lo == 5
    case 6 => lo == 6
    case 7 => lo == 7
    case 8 => lo == 8
    case 9 => lo == 9
    case 10 => lo == 10
    case 11 => lo == 11
    case 12 => lo == 12
    case 13 => lo == 13
    case 14 => lo == 14
    case 15 => lo == 15
    case _ => false
  }

  lemma Index(lo: byte)
    requires lo < 16
    ensures Nibble(lo, lo as nat)
  {
  }

  lemma At16(row: seq<bv16>, hi: byte, lo: byte, k: nat)
    requires Row16(row, hi) && Nibble(lo, k)
    ensures |row| == 16 && k < 16 && row[k] == Entry16(hi, lo)
  {
    hide Entry16;
  }

  lemma At32(row: seq<bv32>, hi: byte, lo: byte, k: nat)
    requires Row32(row, hi) && Nibble(lo, k)
    ensures |row| == 16 && k < 16 && row[k] == Entry32(hi, lo)
  {
    hide Entry32;
  }

  lemma Nibbles(i: byte)
    ensures i >> 4 < 16 && i & 15 < 16
    ensures (((i >> 4) as bv16) << 12) | (((i & 15) as bv16) << 8) == (i as bv16) << 8
    ensures (((i >> 4) as bv32) << 4) | ((i & 15) as bv32) == i as bv32
  {
  }

  lemma RowsLong(i: byte)
    ensures (i & 15) as nat < 16
    ensures |CrcRow(i >> 4)| == |Cr3Row(i >> 4)| == 16
  {
    hide EightL, EightR, CrcRow, Cr3Row, Row16, Row32, Entry16, Entry32, Nibble;
    Nibbles(i);
    CrcRowFilled(i >> 4);
    Cr3RowFilled(i >> 4);
    Index(i & 15);
    At16(CrcRow(i >> 4), i >> 4, i & 15, (i & 15) as nat);
    At32(Cr3Row(i >> 4), i >> 4, i & 15, (i & 15) as nat);
  }

  /** crctab[i]. */
  function CrcTab(i: byte): bv16 {
    hide CrcRow;
    RowsLong(i);
    CrcRow(i >> 4)[(i & 15) as nat]
  }

  /** cr3tab[i]. */
  function Cr3Tab(i: byte): bv32 {
    hide Cr3Row;
    RowsLong(i);
    Cr3Row(i >> 4)[(i & 15) as nat]
  }

  /** Every entry of the two constant tables is eight shift steps of its index. */
  lemma TablesAreSteps(i: byte)
    ensures CrcTab(i) == EightL((i as bv16) << 8) && Cr3Tab(i) == EightR(i as bv32)
  {
    hide EightL, EightR, CrcRow, Cr3Row, Row16, Row32, Nibble;
    Nibbles(i);
    CrcRowFilled(i >> 4);
    Cr3RowFilled(i >> 4);
    Index(i & 15);
    At16(CrcRow(i >> 4), i >> 4, i & 15, (i & 15) as nat);
    At32(Cr3Row(i >> 4), i >> 4, i & 15, (i & 15) as nat);
  }

  /** updcrc on a 16-bit register. */
  function UpdCrc(c: byte, crc: bv16): bv16 {
    Xor16(Xor16(CrcTab(((crc >> 8) & 255) as byte), crc << 8), c as bv16)
  }

  /** UPDC32 on a 32-bit register. */
  function UpdC32(c: byte, crc: bv32): bv32 {
    Xor32(Cr3Tab((Xor32(crc, c as bv32) & 0xff) as byte), (crc >> 8) & 0x00ffffff)
  }

  /** The receiver's running CRC-16 over everything it has read. */
  function Sum16(s: seq<byte>): bv16 {
    if s == [] then 0 else UpdCrc(s[|s| - 1], Sum16(s[..|s| - 1]))
  }

  /** The sender pushes two zero bytes through before it sends the register. */
  function Flushed(crc: bv16): bv16 { UpdCrc(0, UpdCrc(0, crc)) }

  function High(t: bv16): byte { (t >> 8) as byte }

  function Low(t: bv16): byte { (t & 0xff) as byte }

  function Tail16(s: seq<byte>): seq<byte> {
    var t := Flushed(Sum16(s));
    [High(t), Low(t)]
  }

  function Tail32(s: seq<byte>): seq<byte> { Check32(s) }

  // ----- what is sent is the CCITT remainder; what is received sums to zero --

  function StepsL(x: bv16, n: nat): bv16
    decreases n
  {
    if n == 0 then x else ShiftL(StepsL(x, n - 1))
  }

  /** The CCITT register after the message `s`, high bit first. */
  function Ccitt(s: seq<byte>): bv16 {
    if s == [] then 0
    else StepsL(Xor16(Ccitt(s[..|s| - 1]), (s[|s| - 1] as bv16) << 8), 8)
  }

  lemma TopBitL(x: bv16)
    ensures x & 0x8000 == 0 || x & 0x8000 == 0x8000
  {
  }

  lemma XorShiftL(x: bv16, y: bv16)
    ensures (x ^ y) << 1 == (x << 1) ^ (y << 1)
    ensures (x ^ POLYL) ^ (y ^ POLYL) == x ^ y
    ensures (x ^ POLYL) ^ y == (x ^ y) ^ POLYL == x ^ (y ^ POLYL)
    ensures (x ^ y) & 0x8000 == (x & 0x8000) ^ (y & 0x8000)
  {
  }

  lemma ShiftLinearL(x: bv16, y: bv16)
    ensures ShiftL(x ^ y) == ShiftL(x) ^ ShiftL(y)
  {
    TopBitL(x);
    TopBitL(y);
    XorShiftL(x, y);
    XorShiftL(x << 1, y << 1);
  }

  lemma ShiftXoredL(x: bv16, y: bv16)
    ensures ShiftL(Xor16(x, y)) == Xor16(ShiftL(x), ShiftL(y))
  {
    hide ShiftL;
    ShiftLinearL(x, y);
  }

  lemma {:induction false} StepsLinearL(x: bv16, y: bv16, n: nat)
    ensures StepsL(Xor16(x, y), n) == Xor16(StepsL(x, n), StepsL(y, n))
    decreases n
  {
    hide ShiftL, Xor16;
    if n > 0 {
      StepsLinearL(x, y, n - 1);
      ShiftXoredL(StepsL(x, n - 1), StepsL(y, n - 1));
    }
  }

  lemma EightShiftsL(x: bv16)
    ensures StepsL(x, 8) == EightL(x)
  {
    hide ShiftL;
    assert StepsL(x, 4) == ShiftL(ShiftL(ShiftL(ShiftL(x))));
  }

  lemma LowByteL(x: bv16)
    requires x < 256
    ensures EightL(x) == x << 8
  {
  }

  lemma HalvesL(x: bv16)
    ensures x == Xor16(x & 0xff00, x & 0xff) && x & 0xff < 256
    ensures (((x >> 8) & 255) as byte as bv16) << 8 == x & 0xff00
    ensures (x & 0xff) << 8 == x << 8
  {
  }

  /** updcrc is eight bit-serial steps and then the new byte. */
  lemma UpdCrcSteps(c: byte, x: bv16)
    ensures UpdCrc(c, x) == Xor16(StepsL(x, 8), c as bv16)
  {
    hide EightL, EightR, ShiftL, StepsL, Xor16, CrcTab, Cr3Tab;
    HalvesL(x);
    TablesAreSteps(((x >> 8) & 255) as byte);
    StepsLinearL(x & 0xff00, x & 0xff, 8);
    EightShiftsL(x & 0xff00);
    EightShiftsL(x & 0xff);
    LowByteL(x & 0xff);
  }

  lemma {:induction false} Sum16Append(s: seq<byte>, a: byte, b: byte)
    ensures Sum16(s + [a, b]) == UpdCrc(b, UpdCrc(a, Sum16(s)))
  {
    assert (s + [a, b])[..|s| + 1] == s + [a] && (s + [a])[..|s|] == s;
  }

  /** The register the sender appends is the CCITT remainder of the message. */
  lemma {:induction false} FlushedIsCcitt(s: seq<byte>)
    ensures Flushed(Sum16(s)) == Ccitt(s)
  {
    hide UpdCrc, StepsL, Xor16;
    FlushedSteps(Sum16(s));
    if s == [] {
      ZeroSteps();
    } else {
      var (p, c) := (s[..|s| - 1], s[|s| - 1]);
      FlushedIsCcitt(p);
      FlushedSteps(Sum16(p));
      UpdCrcSteps(c, Sum16(p));
      OneByte(StepsL(Sum16(p), 8), c);
    }
  }

  lemma ZeroSteps()
    ensures StepsL(0, 8) == 0
  {
    EightShiftsL(0);
  }

  lemma FlushedSteps(x: bv16)
    ensures Flushed(x) == StepsL(StepsL(x, 8), 8)
  {
    hide StepsL, UpdCrc;
    UpdCrcSteps(0, x);
    UpdCrcSteps(0, StepsL(x, 8));
  }

  lemma OneByte(u: bv16, c: byte)
    ensures StepsL(StepsL(Xor16(u, c as bv16), 8), 8) == StepsL(Xor16(StepsL(u, 8), (c as bv16) << 8), 8)
  {
    hide StepsL, Xor16, EightL;
    StepsLinearL(u, c as bv16, 8);
    EightShiftsL(c as bv16);
    LowByteL(c as bv16);
  }

  lemma TwoTailBytes(x: bv16, hi: byte, lo: byte)
    requires Xor16(Xor16(StepsL(StepsL(x, 8), 8), (hi as bv16) << 8), lo as bv16) == 0
    ensures UpdCrc(lo, UpdCrc(hi, x)) == 0
  {
    hide UpdCrc, StepsL, Xor16, EightL;
    UpdCrcSteps(hi, x);
    UpdCrcSteps(lo, UpdCrc(hi, x));
    StepsLinearL(StepsL(x, 8), hi as bv16, 8);
    EightShiftsL(hi as bv16);
    LowByteL(hi as bv16);
  }

  /** The receiver's sum over the message and the appended register is zero. */
  lemma {:induction false} SumIsZero(s: seq<byte>)
    ensures Sum16(s + Tail16(s)) == 0
  {
    hide UpdCrc, StepsL, Xor16, Flushed, Sum16, High, Low;
    var t := Flushed(Sum16(s));
    Cancel(t);
    FlushedSteps(Sum16(s));
    TwoTailBytes(Sum16(s), High(t), Low(t));
    Sum16Append(s, High(t), Low(t));
  }

  lemma Cancel(t: bv16)
    ensures Xor16(Xor16(t, (High(t) as bv16) << 8), Low(t) as bv16) == 0
  {
  }

  /** UPDC32 with the constant table is HYDRA's CRC-32 step. */
  lemma UpdC32IsUpdate32(c: byte, crc: bv32)
    ensures UpdC32(c, crc) == Update32(crc, c)
  {
    hide Steps32, Xor32, Shift32, CrcTab, Cr3Tab, EightL;
    var x := Xor32(crc, c as bv32);
    EightShifts32(x & 0xff);
    ByteStep32(x);
    Upper(crc, c);
    LowIndex(x);
    TablesAreSteps((x & 0xff) as byte);
  }

  lemma Upper(crc: bv32, c: byte)
    ensures (crc >> 8) & 0x00ffffff == Xor32(crc, c as bv32) >> 8
  {
  }

  lemma LowIndex(x: bv32)
    ensures (x & 0xff) as byte as bv32 == x & 0xff
  {
  }
}

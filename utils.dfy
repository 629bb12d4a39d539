/**
 * The table from prefix length to dotted-quad netmask, and the conversion function that
 * was meant to use it.
 */
module Utils {
  import opened Wrappers
  import opened OrderedDict
  import opened Ipv4

  /** `length_to_mask_table`, entry for entry and in the order its literal lists them. */
  const LengthToMaskTable: seq<Entry<string, string>> := [
    Entry("0", "0.0.0.0"),
    Entry("10", "255.192.0.0"),
    Entry("9", "255.128.0.0"),
    Entry("8", "255.0.0.0"),
    Entry("7", "254.0.0.0"),
    Entry("6", "252.0.0.0"),
    Entry("5", "248.0.0.0"),
    Entry("4", "240.0.0.0"),
    Entry("3", "224.0.0.0"),
    Entry("2", "192.0.0.0"),
    Entry("1", "128.0.0.0"),
    Entry("11", "255.224.0.0"),
    Entry("12", "255.240.0.0"),
    Entry("13", "255.248.0.0"),
    Entry("14", "255.252.0.0"),
    Entry("15", "255.254.0.0"),
    Entry("16", "255.255.0.0"),
    Entry("17", "255.255.128.0"),
    Entry("18", "255.255.192.0"),
    Entry("19", "255.255.224.0"),
    Entry("20", "255.255.240.0"),
    Entry("21", "255.255.248.0"),
    Entry("22", "255.255.252.0"),
    Entry("23", "255.255.254.0"),
    Entry("24", "255.255.255.0"),
    Entry("25", "255.255.255.128"),
    Entry("26", "255.255.255.192"),
    Entry("27", "255.255.255.224"),
    Entry("28", "255.255.255.240"),
    Entry("29", "255.255.255.248"),
    Entry("30", "255.255.255.252"),
    Entry("31", "255.255.255.254"),
    Entry("32", "255.255.255.255")
  ]

  /** The prefix length whose entry stands at position `i` of the table's literal. */
  function KeyAt(i: nat): (k: PrefixLength)
    requires i < 33
  {
    if i == 0 then 0 else if i <= 10 then 11 - i else i
  }

  /** Where the entry for prefix length `k` stands in the table's literal. */
  function PositionOf(k: PrefixLength): (i: nat)
    ensures i < 33 && KeyAt(i) == k
  {
    if k == 0 then 0 else if k <= 10 then 11 - k else k
  }

  lemma MaskTableRow0()
    ensures LengthToMaskTable[0] == Entry(Dec(0), DottedQuad(PrefixMask(0)))
  {
    assert LengthToMaskTable[0] == Entry("0", "0.0.0.0");
    assert Dec(0) == "0";
    assert PrefixMask(0) == 0x0;
    assert Octet(0x0, 0) == 0;
    assert Octet(0x0, 1) == 0;
    assert Octet(0x0, 2) == 0;
    assert Octet(0x0, 3) == 0;
    assert DottedQuad(0x0) == "0.0.0.0";
  }

  lemma MaskTableRow1()
    ensures LengthToMaskTable[1] == Entry(Dec(10), DottedQuad(PrefixMask(10)))
  {
    assert LengthToMaskTable[1] == Entry("10", "255.192.0.0");
    assert Dec(10) == "10";
    assert PrefixMask(10) == 0xFFC00000;
    assert Octet(0xFFC00000, 0) == 255;
    assert Octet(0xFFC00000, 1) == 192;
    assert Octet(0xFFC00000, 2) == 0;
    assert Octet(0xFFC00000, 3) == 0;
    assert Dec(0) == "0";
    assert Dec(192) == "192";
    assert Dec(255) == "255";
    assert DottedQuad(0xFFC00000) == "255.192.0.0";
  }

  lemma MaskTableRow2()
    ensures LengthToMaskTable[2] == Entry(Dec(9), DottedQuad(PrefixMask(9)))
  {
    assert LengthToMaskTable[2] == Entry("9", "255.128.0.0");
    assert Dec(9) == "9";
    assert PrefixMask(9) == 0xFF800000;
    assert Octet(0xFF800000, 0) == 255;
    assert Octet(0xFF800000, 1) == 128;
    assert Octet(0xFF800000, 2) == 0;
    assert Octet(0xFF800000, 3) == 0;
    assert Dec(0) == "0";
    assert Dec(128) == "128";
    assert Dec(255) == "255";
    assert DottedQuad(0xFF800000) == "255.128.0.0";
  }

  lemma MaskTableRow3()
    ensures LengthToMaskTable[3] == Entry(Dec(8), DottedQuad(PrefixMask(8)))
  {
    assert LengthToMaskTable[3] == Entry("8", "255.0.0.0");
    assert Dec(8) == "8";
    assert PrefixMask(8) == 0xFF000000;
    assert Octet(0xFF000000, 0) == 255;
    assert Octet(0xFF000000, 1) == 0;
    assert Octet(0xFF000000, 2) == 0;
    assert Octet(0xFF000000, 3) == 0;
    assert Dec(0) == "0";
    assert Dec(255) == "255";
    assert DottedQuad(0xFF000000) == "255.0.0.0";
  }

  lemma MaskTableRow4()
    ensures LengthToMaskTable[4] == Entry(Dec(7), DottedQuad(PrefixMask(7)))
  {
    assert LengthToMaskTable[4] == Entry("7", "254.0.0.0");
    assert Dec(7) == "7";
    assert PrefixMask(7) == 0xFE000000;
    assert Octet(0xFE000000, 0) == 254;
    assert Octet(0xFE000000, 1) == 0;
    assert Octet(0xFE000000, 2) == 0;
    assert Octet(0xFE000000, 3) == 0;
    assert Dec(0) == "0";
    assert Dec(254) == "254";
    assert DottedQuad(0xFE000000) == "254.0.0.0";
  }

  lemma MaskTableRow5()
    ensures LengthToMaskTable[5] == Entry(Dec(6), DottedQuad(PrefixMask(6)))
  {
    assert LengthToMaskTable[5] == Entry("6", "252.0.0.0");
    assert Dec(6) == "6";
    assert PrefixMask(6) == 0xFC000000;
    assert Octet(0xFC000000, 0) == 252;
    assert Octet(0xFC000000, 1) == 0;
    assert Octet(0xFC000000, 2) == 0;
    assert Octet(0xFC000000, 3) == 0;
    assert Dec(0) == "0";
    assert Dec(252) == "252";
    assert DottedQuad(0xFC000000) == "252.0.0.0";
  }

  lemma MaskTableRow6()
    ensures LengthToMaskTable[6] == Entry(Dec(5), DottedQuad(PrefixMask(5)))
  {
    assert LengthToMaskTable[6] == Entry("5", "248.0.0.0");
    assert Dec(5) == "5";
    assert PrefixMask(5) == 0xF8000000;
    assert Octet(0xF8000000, 0) == 248;
    assert Octet(0xF8000000, 1) == 0;
    assert Octet(0xF8000000, 2) == 0;
    assert Octet(0xF8000000, 3) == 0;
    assert Dec(0) == "0";
    assert Dec(248) == "248";
    assert DottedQuad(0xF8000000) == "248.0.0.0";
  }

  lemma MaskTableRow7()
    ensures LengthToMaskTable[7] == Entry(Dec(4), DottedQuad(PrefixMask(4)))
  {
    assert LengthToMaskTable[7] == Entry("4", "240.0.0.0");
    assert Dec(4) == "4";
    assert PrefixMask(4) == 0xF0000000;
    assert Octet(0xF0000000, 0) == 240;
    assert Octet(0xF0000000, 1) == 0;
    assert Octet(0xF0000000, 2) == 0;
    assert Octet(0xF0000000, 3) == 0;
    assert Dec(0) == "0";
    assert Dec(240) == "240";
    assert DottedQuad(0xF0000000) == "240.0.0.0";
  }

  lemma MaskTableRow8()
    ensures LengthToMaskTable[8] == Entry(Dec(3), DottedQuad(PrefixMask(3)))
  {
    assert LengthToMaskTable[8] == Entry("3", "224.0.0.0");
    assert Dec(3) == "3";
    assert PrefixMask(3) == 0xE0000000;
    assert Octet(0xE0000000, 0) == 224;
    assert Octet(0xE0000000, 1) == 0;
    assert Octet(0xE0000000, 2) == 0;
    assert Octet(0xE0000000, 3) == 0;
    assert Dec(0) == "0";
    assert Dec(224) == "224";
    assert DottedQuad(0xE0000000) == "224.0.0.0";
  }

  lemma MaskTableRow9()
    ensures LengthToMaskTable[9] == Entry(Dec(2), DottedQuad(PrefixMask(2)))
  {
    assert LengthToMaskTable[9] == Entry("2", "192.0.0.0");
    assert Dec(2) == "2";
    assert PrefixMask(2) == 0xC0000000;
    assert Octet(0xC0000000, 0) == 192;
    assert Octet(0xC0000000, 1) == 0;
    assert Octet(0xC0000000, 2) == 0;
    assert Octet(0xC0000000, 3) == 0;
    assert Dec(0) == "0";
    assert Dec(192) == "192";
    assert DottedQuad(0xC0000000) == "192.0.0.0";
  }

  lemma MaskTableRow10()
    ensures LengthToMaskTable[10] == Entry(Dec(1), DottedQuad(PrefixMask(1)))
  {
    assert LengthToMaskTable[10] == Entry("1", "128.0.0.0");
    assert Dec(1) == "1";
    assert PrefixMask(1) == 0x80000000;
    assert Octet(0x80000000, 0) == 128;
    assert Octet(0x80000000, 1) == 0;
    assert Octet(0x80000000, 2) == 0;
    assert Octet(0x80000000, 3) == 0;
    assert Dec(0) == "0";
    assert Dec(128) == "128";
    assert DottedQuad(0x80000000) == "128.0.0.0";
  }

  lemma MaskTableRow11()
    ensures LengthToMaskTable[11] == Entry(Dec(11), DottedQuad(PrefixMask(11)))
  {
    assert LengthToMaskTable[11] == Entry("11", "255.224.0.0");
    assert Dec(11) == "11";
    assert PrefixMask(11) == 0xFFE00000;
    assert Octet(0xFFE00000, 0) == 255;
    assert Octet(0xFFE00000, 1) == 224;
    assert Octet(0xFFE00000, 2) == 0;
    assert Octet(0xFFE00000, 3) == 0;
    assert Dec(0) == "0";
    assert Dec(224) == "224";
    assert Dec(255) == "255";
    assert DottedQuad(0xFFE00000) == "255.224.0.0";
  }

  lemma MaskTableRow12()
    ensures LengthToMaskTable[12] == Entry(Dec(12), DottedQuad(PrefixMask(12)))
  {
    assert LengthToMaskTable[12] == Entry("12", "255.240.0.0");
    assert Dec(12) == "12";
    assert PrefixMask(12) == 0xFFF00000;
    assert Octet(0xFFF00000, 0) == 255;
    assert Octet(0xFFF00000, 1) == 240;
    assert Octet(0xFFF00000, 2) == 0;
    assert Octet(0xFFF00000, 3) == 0;
    assert Dec(0) == "0";
    assert Dec(240) == "240";
    assert Dec(255) == "255";
    assert DottedQuad(0xFFF00000) == "255.240.0.0";
  }

  lemma MaskTableRow13()
    ensures LengthToMaskTable[13] == Entry(Dec(13), DottedQuad(PrefixMask(13)))
  {
    assert LengthToMaskTable[13] == Entry("13", "255.248.0.0");
    assert Dec(13) == "13";
    assert PrefixMask(13) == 0xFFF80000;
    assert Octet(0xFFF80000, 0) == 255;
    assert Octet(0xFFF80000, 1) == 248;
    assert Octet(0xFFF80000, 2) == 0;
    assert Octet(0xFFF80000, 3) == 0;
    assert Dec(0) == "0";
    assert Dec(248) == "248";
    assert Dec(255) == "255";
    assert DottedQuad(0xFFF80000) == "255.248.0.0";
  }

  lemma MaskTableRow14()
    ensures LengthToMaskTable[14] == Entry(Dec(14), DottedQuad(PrefixMask(14)))
  {
    assert LengthToMaskTable[14] == Entry("14", "255.252.0.0");
    assert Dec(14) == "14";
    assert PrefixMask(14) == 0xFFFC0000;
    assert Octet(0xFFFC0000, 0) == 255;
    assert Octet(0xFFFC0000, 1) == 252;
    assert Octet(0xFFFC0000, 2) == 0;
    assert Octet(0xFFFC0000, 3) == 0;
    assert Dec(0) == "0";
    assert Dec(252) == "252";
    assert Dec(255) == "255";
    assert DottedQuad(0xFFFC0000) == "255.252.0.0";
  }

  lemma MaskTableRow15()
    ensures LengthToMaskTable[15] == Entry(Dec(15), DottedQuad(PrefixMask(15)))
  {
    assert LengthToMaskTable[15] == Entry("15", "255.254.0.0");
    assert Dec(15) == "15";
    assert PrefixMask(15) == 0xFFFE0000;
    assert Octet(0xFFFE0000, 0) == 255;
    assert Octet(0xFFFE0000, 1) == 254;
    assert Octet(0xFFFE0000, 2) == 0;
    assert Octet(0xFFFE0000, 3) == 0;
    assert Dec(0) == "0";
    assert Dec(254) == "254";
    assert Dec(255) == "255";
    assert DottedQuad(0xFFFE0000) == "255.254.0.0";
  }

  lemma MaskTableRow16()
    ensures LengthToMaskTable[16] == Entry(Dec(16), DottedQuad(PrefixMask(16)))
  {
    assert LengthToMaskTable[16] == Entry("16", "255.255.0.0");
    assert Dec(16) == "16";
    assert PrefixMask(16) == 0xFFFF0000;
    assert Octet(0xFFFF0000, 0) == 255;
    assert Octet(0xFFFF0000, 1) == 255;
    assert Octet(0xFFFF0000, 2) == 0;
    assert Octet(0xFFFF0000, 3) == 0;
    assert Dec(0) == "0";
    assert Dec(255) == "255";
    assert DottedQuad(0xFFFF0000) == "255.255.0.0";
  }

  lemma MaskTableRow17()
    ensures LengthToMaskTable[17] == Entry(Dec(17), DottedQuad(PrefixMask(17)))
  {
    assert LengthToMaskTable[17] == Entry("17", "255.255.128.0");
    assert Dec(17) == "17";
    assert PrefixMask(17) == 0xFFFF8000;
    assert Octet(0xFFFF8000, 0) == 255;
    assert Octet(0xFFFF8000, 1) == 255;
    assert Octet(0xFFFF8000, 2) == 128;
    assert Octet(0xFFFF8000, 3) == 0;
    assert Dec(0) == "0";
    assert Dec(128) == "128";
    assert Dec(255) == "255";
    assert DottedQuad(0xFFFF8000) == "255.255.128.0";
  }

  lemma MaskTableRow18()
    ensures LengthToMaskTable[18] == Entry(Dec(18), DottedQuad(PrefixMask(18)))
  {
    assert LengthToMaskTable[18] == Entry("18", "255.255.192.0");
    assert Dec(18) == "18";
    assert PrefixMask(18) == 0xFFFFC000;
    assert Octet(0xFFFFC000, 0) == 255;
    assert Octet(0xFFFFC000, 1) == 255;
    assert Octet(0xFFFFC000, 2) == 192;
    assert Octet(0xFFFFC000, 3) == 0;
    assert Dec(0) == "0";
    assert Dec(192) == "192";
    assert Dec(255) == "255";
    assert DottedQuad(0xFFFFC000) == "255.255.192.0";
  }

  lemma MaskTableRow19()
    ensures LengthToMaskTable[19] == Entry(Dec(19), DottedQuad(PrefixMask(19)))
  {
    assert LengthToMaskTable[19] == Entry("19", "255.255.224.0");
    assert Dec(19) == "19";
    assert PrefixMask(19) == 0xFFFFE000;
    assert Octet(0xFFFFE000, 0) == 255;
    assert Octet(0xFFFFE000, 1) == 255;
    assert Octet(0xFFFFE000, 2) == 224;
    assert Octet(0xFFFFE000, 3) == 0;
    assert Dec(0) == "0";
    assert Dec(224) == "224";
    assert Dec(255) == "255";
    assert DottedQuad(0xFFFFE000) == "255.255.224.0";
  }

  lemma MaskTableRow20()
    ensures LengthToMaskTable[20] == Entry(Dec(20), DottedQuad(PrefixMask(20)))
  {
    assert LengthToMaskTable[20] == Entry("20", "255.255.240.0");
    assert Dec(20) == "20";
    assert PrefixMask(20) == 0xFFFFF000;
    assert Octet(0xFFFFF000, 0) == 255;
    assert Octet(0xFFFFF000, 1) == 255;
    assert Octet(0xFFFFF000, 2) == 240;
    assert Octet(0xFFFFF000, 3) == 0;
    assert Dec(0) == "0";
    assert Dec(240) == "240";
    assert Dec(255) == "255";
    assert DottedQuad(0xFFFFF000) == "255.255.240.0";
  }

  lemma MaskTableRow21()
    ensures LengthToMaskTable[21] == Entry(Dec(21), DottedQuad(PrefixMask(21)))
  {
    assert LengthToMaskTable[21] == Entry("21", "255.255.248.0");
    assert Dec(21) == "21";
    assert PrefixMask(21) == 0xFFFFF800;
    assert Octet(0xFFFFF800, 0) == 255;
    assert Octet(0xFFFFF800, 1) == 255;
    assert Octet(0xFFFFF800, 2) == 248;
    assert Octet(0xFFFFF800, 3) == 0;
    assert Dec(0) == "0";
    assert Dec(248) == "248";
    assert Dec(255) == "255";
    assert DottedQuad(0xFFFFF800) == "255.255.248.0";
  }

  lemma MaskTableRow22()
    ensures LengthToMaskTable[22] == Entry(Dec(22), DottedQuad(PrefixMask(22)))
  {
    assert LengthToMaskTable[22] == Entry("22", "255.255.252.0");
    assert Dec(22) == "22";
    assert PrefixMask(22) == 0xFFFFFC00;
    assert Octet(0xFFFFFC00, 0) == 255;
    assert Octet(0xFFFFFC00, 1) == 255;
    assert Octet(0xFFFFFC00, 2) == 252;
    assert Octet(0xFFFFFC00, 3) == 0;
    assert Dec(0) == "0";
    assert Dec(252) == "252";
    assert Dec(255) == "255";
    assert DottedQuad(0xFFFFFC00) == "255.255.252.0";
  }

  lemma MaskTableRow23()
    ensures LengthToMaskTable[23] == Entry(Dec(23), DottedQuad(PrefixMask(23)))
  {
    assert LengthToMaskTable[23] == Entry("23", "255.255.254.0");
    assert Dec(23) == "23";
    assert PrefixMask(23) == 0xFFFFFE00;
    assert Octet(0xFFFFFE00, 0) == 255;
    assert Octet(0xFFFFFE00, 1) == 255;
    assert Octet(0xFFFFFE00, 2) == 254;
    assert Octet(0xFFFFFE00, 3) == 0;
    assert Dec(0) == "0";
    assert Dec(254) == "254";
    assert Dec(255) == "255";
    assert DottedQuad(0xFFFFFE00) == "255.255.254.0";
  }

  lemma MaskTableRow24()
    ensures LengthToMaskTable[24] == Entry(Dec(24), DottedQuad(PrefixMask(24)))
  {
    assert LengthToMaskTable[24] == Entry("24", "255.255.255.0");
    assert Dec(24) == "24";
    assert PrefixMask(24) == 0xFFFFFF00;
    assert Octet(0xFFFFFF00, 0) == 255;
    assert Octet(0xFFFFFF00, 1) == 255;
    assert Octet(0xFFFFFF00, 2) == 255;
    assert Octet(0xFFFFFF00, 3) == 0;
    assert Dec(0) == "0";
    assert Dec(255) == "255";
    assert DottedQuad(0xFFFFFF00) == "255.255.255.0";
  }

  lemma MaskTableRow25()
    ensures LengthToMaskTable[25] == Entry(Dec(25), DottedQuad(PrefixMask(25)))
  {
    assert LengthToMaskTable[25] == Entry("25", "255.255.255.128");
    assert Dec(25) == "25";
    assert PrefixMask(25) == 0xFFFFFF80;
    assert Octet(0xFFFFFF80, 0) == 255;
    assert Octet(0xFFFFFF80, 1) == 255;
    assert Octet(0xFFFFFF80, 2) == 255;
    assert Octet(0xFFFFFF80, 3) == 128;
    assert Dec(128) == "128";
    assert Dec(255) == "255";
    assert DottedQuad(0xFFFFFF80) == "255.255.255.128";
  }

  lemma MaskTableRow26()
    ensures LengthToMaskTable[26] == Entry(Dec(26), DottedQuad(PrefixMask(26)))
  {
    assert LengthToMaskTable[26] == Entry("26", "255.255.255.192");
    assert Dec(26) == "26";
    assert PrefixMask(26) == 0xFFFFFFC0;
    assert Octet(0xFFFFFFC0, 0) == 255;
    assert Octet(0xFFFFFFC0, 1) == 255;
    assert Octet(0xFFFFFFC0, 2) == 255;
    assert Octet(0xFFFFFFC0, 3) == 192;
    assert Dec(192) == "192";
    assert Dec(255) == "255";
    assert DottedQuad(0xFFFFFFC0) == "255.255.255.192";
  }

  lemma MaskTableRow27()
    ensures LengthToMaskTable[27] == Entry(Dec(27), DottedQuad(PrefixMask(27)))
  {
    assert LengthToMaskTable[27] == Entry("27", "255.255.255.224");
    assert Dec(27) == "27";
    assert PrefixMask(27) == 0xFFFFFFE0;
    assert Octet(0xFFFFFFE0, 0) == 255;
    assert Octet(0xFFFFFFE0, 1) == 255;
    assert Octet(0xFFFFFFE0, 2) == 255;
    assert Octet(0xFFFFFFE0, 3) == 224;
    assert Dec(224) == "224";
    assert Dec(255) == "255";
    assert DottedQuad(0xFFFFFFE0) == "255.255.255.224";
  }

  lemma MaskTableRow28()
    ensures LengthToMaskTable[28] == Entry(Dec(28), DottedQuad(PrefixMask(28)))
  {
    assert LengthToMaskTable[28] == Entry("28", "255.255.255.240");
    assert Dec(28) == "28";
    assert PrefixMask(28) == 0xFFFFFFF0;
    assert Octet(0xFFFFFFF0, 0) == 255;
    assert Octet(0xFFFFFFF0, 1) == 255;
    assert Octet(0xFFFFFFF0, 2) == 255;
    assert Octet(0xFFFFFFF0, 3) == 240;
    assert Dec(240) == "240";
    assert Dec(255) == "255";
    assert DottedQuad(0xFFFFFFF0) == "255.255.255.240";
  }

  lemma MaskTableRow29()
    ensures LengthToMaskTable[29] == Entry(Dec(29), DottedQuad(PrefixMask(29)))
  {
    assert LengthToMaskTable[29] == Entry("29", "255.255.255.248");
    assert Dec(29) == "29";
    assert PrefixMask(29) == 0xFFFFFFF8;
    assert Octet(0xFFFFFFF8, 0) == 255;
    assert Octet(0xFFFFFFF8, 1) == 255;
    assert Octet(0xFFFFFFF8, 2) == 255;
    assert Octet(0xFFFFFFF8, 3) == 248;
    assert Dec(248) == "248";
    assert Dec(255) == "255";
    assert DottedQuad(0xFFFFFFF8) == "255.255.255.248";
  }

  lemma MaskTableRow30()
    ensures LengthToMaskTable[30] == Entry(Dec(30), DottedQuad(PrefixMask(30)))
  {
    assert LengthToMaskTable[30] == Entry("30", "255.255.255.252");
    assert Dec(30) == "30";
    assert PrefixMask(30) == 0xFFFFFFFC;
    assert Octet(0xFFFFFFFC, 0) == 255;
    assert Octet(0xFFFFFFFC, 1) == 255;
    assert Octet(0xFFFFFFFC, 2) == 255;
    assert Octet(0xFFFFFFFC, 3) == 252;
    assert Dec(252) == "252";
    assert Dec(255) == "255";
    assert DottedQuad(0xFFFFFFFC) == "255.255.255.252";
  }

  lemma MaskTableRow31()
    ensures LengthToMaskTable[31] == Entry(Dec(31), DottedQuad(PrefixMask(31)))
  {
    assert LengthToMaskTable[31] == Entry("31", "255.255.255.254");
    assert Dec(31) == "31";
    assert PrefixMask(31) == 0xFFFFFFFE;
    assert Octet(0xFFFFFFFE, 0) == 255;
    assert Octet(0xFFFFFFFE, 1) == 255;
    assert Octet(0xFFFFFFFE, 2) == 255;
    assert Octet(0xFFFFFFFE, 3) == 254;
    assert Dec(254) == "254";
    assert Dec(255) == "255";
    assert DottedQuad(0xFFFFFFFE) == "255.255.255.254";
  }

  lemma MaskTableRow32()
    ensures LengthToMaskTable[32] == Entry(Dec(32), DottedQuad(PrefixMask(32)))
  {
    assert LengthToMaskTable[32] == Entry("32", "255.255.255.255");
    assert Dec(32) == "32";
    assert PrefixMask(32) == 0xFFFFFFFF;
    assert Octet(0xFFFFFFFF, 0) == 255;
    assert Octet(0xFFFFFFFF, 1) == 255;
    assert Octet(0xFFFFFFFF, 2) == 255;
    assert Octet(0xFFFFFFFF, 3) == 255;
    assert Dec(255) == "255";
    assert DottedQuad(0xFFFFFFFF) == "255.255.255.255";
  }

  /** Entry `i` of the table pairs the decimal text of its prefix length with the text of its mask. */
  lemma MaskTableRow(i: nat)
    requires i < 33
    ensures |LengthToMaskTable| == 33
    ensures LengthToMaskTable[i] == Entry(Dec(KeyAt(i)), DottedQuad(PrefixMask(KeyAt(i))))
  {
    if i == 0 {
      MaskTableRow0();
    } else if i == 1 {
      MaskTableRow1();
    } else if i == 2 {
      MaskTableRow2();
    } else if i == 3 {
      MaskTableRow3();
    } else if i == 4 {
      MaskTableRow4();
    } else if i == 5 {
      MaskTableRow5();
    } else if i == 6 {
      MaskTableRow6();
    } else if i == 7 {
      MaskTableRow7();
    } else if i == 8 {
      MaskTableRow8();
    } else if i == 9 {
      MaskTableRow9();
    } else if i == 10 {
      MaskTableRow10();
    } else if i == 11 {
      MaskTableRow11();
    } else if i == 12 {
      MaskTableRow12();
    } else if i == 13 {
      MaskTableRow13();
    } else if i == 14 {
      MaskTableRow14();
    } else if i == 15 {
      MaskTableRow15();
    } else if i == 16 {
      MaskTableRow16();
    } else if i == 17 {
      MaskTableRow17();
    } else if i == 18 {
      MaskTableRow18();
    } else if i == 19 {
      MaskTableRow19();
    } else if i == 20 {
      MaskTableRow20();
    } else if i == 21 {
      MaskTableRow21();
    } else if i == 22 {
      MaskTableRow22();
    } else if i == 23 {
      MaskTableRow23();
    } else if i == 24 {
      MaskTableRow24();
    } else if i == 25 {
      MaskTableRow25();
    } else if i == 26 {
      MaskTableRow26();
    } else if i == 27 {
      MaskTableRow27();
    } else if i == 28 {
      MaskTableRow28();
    } else if i == 29 {
      MaskTableRow29();
    } else if i == 30 {
      MaskTableRow30();
    } else if i == 31 {
      MaskTableRow31();
    } else {
      MaskTableRow32();
    }
  }

  /** Decimal text is unambiguous. */
  lemma {:induction false} DecInjective(a: nat, b: nat)
    requires Dec(a) == Dec(b)
    ensures a == b
  {
    if a >= 10 && b >= 10 {
      var sa, sb := Dec(a), Dec(b);
      assert sa[..|sa| - 1] == Dec(a / 10) && sb[..|sb| - 1] == Dec(b / 10);
      DecInjective(a / 10, b / 10);
      assert DigitChar(a % 10) == sa[|sa| - 1] == sb[|sb| - 1] == DigitChar(b % 10);
    }
  }

  /** Distinct positions of the table hold distinct prefix lengths. */
  lemma KeyAtInjective(i: nat, j: nat)
    requires i < 33 && j < 33 && i != j
    ensures KeyAt(i) != KeyAt(j)
  {
  }

  /** No key of the table occurs twice. */
  lemma MaskTableDistinct()
    ensures Distinct(LengthToMaskTable)
  {
    forall i, j | 0 <= i < j < |LengthToMaskTable|
      ensures LengthToMaskTable[i].key != LengthToMaskTable[j].key
    {
      MaskTableRow(i);
      MaskTableRow(j);
      if Dec(KeyAt(i)) == Dec(KeyAt(j)) {
        DecInjective(KeyAt(i), KeyAt(j));
        KeyAtInjective(i, j);
      }
    }
  }

  /** `key` is the decimal text of a prefix length. */
  ghost predicate IsPrefixText(key: string) {
    exists k: PrefixLength :: key == Dec(k)
  }

  /** A table whose position `i` holds the text of `KeyAt(i)` has every text "0" to "32" as a key. */
  lemma KeysCoverDecs(d: seq<Entry<string, string>>)
    requires |d| == 33 && forall i :: 0 <= i < 33 ==> d[i].key == Dec(KeyAt(i))
    ensures forall k: PrefixLength :: Dec(k) in Keys(d)
  {
    forall k: PrefixLength
      ensures Dec(k) in Keys(d)
    {
      var i := PositionOf(k);
      assert d[i].key == Dec(k);
      assert Keys(d)[i] == Dec(k);
    }
  }

  /** ... and no key other than those texts. */
  lemma KeysOnlyDecs(d: seq<Entry<string, string>>)
    requires |d| == 33 && forall i :: 0 <= i < 33 ==> d[i].key == Dec(KeyAt(i))
    ensures forall key :: key in Keys(d) ==> IsPrefixText(key)
  {
    forall key | key in Keys(d)
      ensures IsPrefixText(key)
    {
      var i :| 0 <= i < |d| && Keys(d)[i] == key;
      var k := KeyAt(i);
      assert key == Dec(k);
    }
  }

  /** The keys of the table are exactly the decimal texts "0" through "32", each once. */
  lemma MaskTableKeys()
    ensures Distinct(LengthToMaskTable)
    ensures forall k: PrefixLength :: Dec(k) in Keys(LengthToMaskTable)
    ensures forall key :: key in Keys(LengthToMaskTable) ==> IsPrefixText(key)
  {
    MaskTableDistinct();
    forall i | 0 <= i < 33
      ensures LengthToMaskTable[i].key == Dec(KeyAt(i))
    {
      MaskTableRow(i);
    }
    KeysCoverDecs(LengthToMaskTable);
    KeysOnlyDecs(LengthToMaskTable);
  }

  /** Looking up the decimal text of `k` gives the dotted quad of the mask with `k` leading one bits. */
  lemma MaskTableLookup(k: PrefixLength)
    ensures Get(LengthToMaskTable, Dec(k)) == Some(DottedQuad(PrefixMask(k)))
  {
    var i := PositionOf(k);
    MaskTableDistinct();
    MaskTableRow(i);
    GetDistinctAt(LengthToMaskTable, i);
  }

  /** The octets a netmask can have. */
  predicate MaskOctet(o: nat) {
    o == 0 || o == 128 || o == 192 || o == 224 || o == 240 || o == 248 || o == 252 || o == 254 || o == 255
  }

  lemma MaskOctets0To8(k: PrefixLength)
    requires 0 <= k < 9
    ensures forall i :: 0 <= i < 4 ==> MaskOctet(Octet(PrefixMask(k), i))
    ensures forall i :: 0 <= i < 3 && Octet(PrefixMask(k), i) != 255 ==> Octet(PrefixMask(k), i + 1) == 0
  {
    if k == 0 {
      assert PrefixMask(0) == 0x0;
      assert Octet(0x0, 0) == 0 && Octet(0x0, 1) == 0;
      assert Octet(0x0, 2) == 0 && Octet(0x0, 3) == 0;
    } else if k == 1 {
      assert PrefixMask(1) == 0x80000000;
      assert Octet(0x80000000, 0) == 128 && Octet(0x80000000, 1) == 0;
      assert Octet(0x80000000, 2) == 0 && Octet(0x80000000, 3) == 0;
    } else if k == 2 {
      assert PrefixMask(2) == 0xC0000000;
      assert Octet(0xC0000000, 0) == 192 && Octet(0xC0000000, 1) == 0;
      assert Octet(0xC0000000, 2) == 0 && Octet(0xC0000000, 3) == 0;
    } else if k == 3 {
      assert PrefixMask(3) == 0xE0000000;
      assert Octet(0xE0000000, 0) == 224 && Octet(0xE0000000, 1) == 0;
      assert Octet(0xE0000000, 2) == 0 && Octet(0xE0000000, 3) == 0;
    } else if k == 4 {
      assert PrefixMask(4) == 0xF0000000;
      assert Octet(0xF0000000, 0) == 240 && Octet(0xF0000000, 1) == 0;
      assert Octet(0xF0000000, 2) == 0 && Octet(0xF0000000, 3) == 0;
    } else if k == 5 {
      assert PrefixMask(5) == 0xF8000000;
      assert Octet(0xF8000000, 0) == 248 && Octet(0xF8000000, 1) == 0;
      assert Octet(0xF8000000, 2) == 0 && Octet(0xF8000000, 3) == 0;
    } else if k == 6 {
      assert PrefixMask(6) == 0xFC000000;
      assert Octet(0xFC000000, 0) == 252 && Octet(0xFC000000, 1) == 0;
      assert Octet(0xFC000000, 2) == 0 && Octet(0xFC000000, 3) == 0;
    } else if k == 7 {
      assert PrefixMask(7) == 0xFE000000;
      assert Octet(0xFE000000, 0) == 254 && Octet(0xFE000000, 1) == 0;
      assert Octet(0xFE000000, 2) == 0 && Octet(0xFE000000, 3) == 0;
    } else {
      assert PrefixMask(8) == 0xFF000000;
      assert Octet(0xFF000000, 0) == 255 && Octet(0xFF000000, 1) == 0;
      assert Octet(0xFF000000, 2) == 0 && Octet(0xFF000000, 3) == 0;
    }
  }

  lemma MaskOctets9To16(k: PrefixLength)
    requires 9 <= k < 17
    ensures forall i :: 0 <= i < 4 ==> MaskOctet(Octet(PrefixMask(k), i))
    ensures forall i :: 0 <= i < 3 && Octet(PrefixMask(k), i) != 255 ==> Octet(PrefixMask(k), i + 1) == 0
  {
    if k == 9 {
      assert PrefixMask(9) == 0xFF800000;
      assert Octet(0xFF800000, 0) == 255 && Octet(0xFF800000, 1) == 128;
      assert Octet(0xFF800000, 2) == 0 && Octet(0xFF800000, 3) == 0;
    } else if k == 10 {
      assert PrefixMask(10) == 0xFFC00000;
      assert Octet(0xFFC00000, 0) == 255 && Octet(0xFFC00000, 1) == 192;
      assert Octet(0xFFC00000, 2) == 0 && Octet(0xFFC00000, 3) == 0;
    } else if k == 11 {
      assert PrefixMask(11) == 0xFFE00000;
      assert Octet(0xFFE00000, 0) == 255 && Octet(0xFFE00000, 1) == 224;
      assert Octet(0xFFE00000, 2) == 0 && Octet(0xFFE00000, 3) == 0;
    } else if k == 12 {
      assert PrefixMask(12) == 0xFFF00000;
      assert Octet(0xFFF00000, 0) == 255 && Octet(0xFFF00000, 1) == 240;
      assert Octet(0xFFF00000, 2) == 0 && Octet(0xFFF00000, 3) == 0;
    } else if k == 13 {
      assert PrefixMask(13) == 0xFFF80000;
      assert Octet(0xFFF80000, 0) == 255 && Octet(0xFFF80000, 1) == 248;
      assert Octet(0xFFF80000, 2) == 0 && Octet(0xFFF80000, 3) == 0;
    } else if k == 14 {
      assert PrefixMask(14) == 0xFFFC0000;
      assert Octet(0xFFFC0000, 0) == 255 && Octet(0xFFFC0000, 1) == 252;
      assert Octet(0xFFFC0000, 2) == 0 && Octet(0xFFFC0000, 3) == 0;
    } else if k == 15 {
      assert PrefixMask(15) == 0xFFFE0000;
      assert Octet(0xFFFE0000, 0) == 255 && Octet(0xFFFE0000, 1) == 254;
      assert Octet(0xFFFE0000, 2) == 0 && Octet(0xFFFE0000, 3) == 0;
    } else {
      assert PrefixMask(16) == 0xFFFF0000;
      assert Octet(0xFFFF0000, 0) == 255 && Octet(0xFFFF0000, 1) == 255;
      assert Octet(0xFFFF0000, 2) == 0 && Octet(0xFFFF0000, 3) == 0;
    }
  }

  lemma MaskOctets17To24(k: PrefixLength)
    requires 17 <= k < 25
    ensures forall i :: 0 <= i < 4 ==> MaskOctet(Octet(PrefixMask(k), i))
    ensures forall i :: 0 <= i < 3 && Octet(PrefixMask(k), i) != 255 ==> Octet(PrefixMask(k), i + 1) == 0
  {
    if k == 17 {
      assert PrefixMask(17) == 0xFFFF8000;
      assert Octet(0xFFFF8000, 0) == 255 && Octet(0xFFFF8000, 1) == 255;
      assert Octet(0xFFFF8000, 2) == 128 && Octet(0xFFFF8000, 3) == 0;
    } else if k == 18 {
      assert PrefixMask(18) == 0xFFFFC000;
      assert Octet(0xFFFFC000, 0) == 255 && Octet(0xFFFFC000, 1) == 255;
      assert Octet(0xFFFFC000, 2) == 192 && Octet(0xFFFFC000, 3) == 0;
    } else if k == 19 {
      assert PrefixMask(19) == 0xFFFFE000;
      assert Octet(0xFFFFE000, 0) == 255 && Octet(0xFFFFE000, 1) == 255;
      assert Octet(0xFFFFE000, 2) == 224 && Octet(0xFFFFE000, 3) == 0;
    } else if k == 20 {
      assert PrefixMask(20) == 0xFFFFF000;
      assert Octet(0xFFFFF000, 0) == 255 && Octet(0xFFFFF000, 1) == 255;
      assert Octet(0xFFFFF000, 2) == 240 && Octet(0xFFFFF000, 3) == 0;
    } else if k == 21 {
      assert PrefixMask(21) == 0xFFFFF800;
      assert Octet(0xFFFFF800, 0) == 255 && Octet(0xFFFFF800, 1) == 255;
      assert Octet(0xFFFFF800, 2) == 248 && Octet(0xFFFFF800, 3) == 0;
    } else if k == 22 {
      assert PrefixMask(22) == 0xFFFFFC00;
      assert Octet(0xFFFFFC00, 0) == 255 && Octet(0xFFFFFC00, 1) == 255;
      assert Octet(0xFFFFFC00, 2) == 252 && Octet(0xFFFFFC00, 3) == 0;
    } else if k == 23 {
      assert PrefixMask(23) == 0xFFFFFE00;
      assert Octet(0xFFFFFE00, 0) == 255 && Octet(0xFFFFFE00, 1) == 255;
      assert Octet(0xFFFFFE00, 2) == 254 && Octet(0xFFFFFE00, 3) == 0;
    } else {
      assert PrefixMask(24) == 0xFFFFFF00;
      assert Octet(0xFFFFFF00, 0) == 255 && Octet(0xFFFFFF00, 1) == 255;
      assert Octet(0xFFFFFF00, 2) == 255 && Octet(0xFFFFFF00, 3) == 0;
    }
  }

  lemma MaskOctets25To32(k: PrefixLength)
    requires 25 <= k < 33
    ensures forall i :: 0 <= i < 4 ==> MaskOctet(Octet(PrefixMask(k), i))
    ensures forall i :: 0 <= i < 3 && Octet(PrefixMask(k), i) != 255 ==> Octet(PrefixMask(k), i + 1) == 0
  {
    if k == 25 {
      assert PrefixMask(25) == 0xFFFFFF80;
      assert Octet(0xFFFFFF80, 0) == 255 && Octet(0xFFFFFF80, 1) == 255;
      assert Octet(0xFFFFFF80, 2) == 255 && Octet(0xFFFFFF80, 3) == 128;
    } else if k == 26 {
      assert PrefixMask(26) == 0xFFFFFFC0;
      assert Octet(0xFFFFFFC0, 0) == 255 && Octet(0xFFFFFFC0, 1) == 255;
      assert Octet(0xFFFFFFC0, 2) == 255 && Octet(0xFFFFFFC0, 3) == 192;
    } else if k == 27 {
      assert PrefixMask(27) == 0xFFFFFFE0;
      assert Octet(0xFFFFFFE0, 0) == 255 && Octet(0xFFFFFFE0, 1) == 255;
      assert Octet(0xFFFFFFE0, 2) == 255 && Octet(0xFFFFFFE0, 3) == 224;
    } else if k == 28 {
      assert PrefixMask(28) == 0xFFFFFFF0;
      assert Octet(0xFFFFFFF0, 0) == 255 && Octet(0xFFFFFFF0, 1) == 255;
      assert Octet(0xFFFFFFF0, 2) == 255 && Octet(0xFFFFFFF0, 3) == 240;
    } else if k == 29 {
      assert PrefixMask(29) == 0xFFFFFFF8;
      assert Octet(0xFFFFFFF8, 0) == 255 && Octet(0xFFFFFFF8, 1) == 255;
      assert Octet(0xFFFFFFF8, 2) == 255 && Octet(0xFFFFFFF8, 3) == 248;
    } else if k == 30 {
      assert PrefixMask(30) == 0xFFFFFFFC;
      assert Octet(0xFFFFFFFC, 0) == 255 && Octet(0xFFFFFFFC, 1) == 255;
      assert Octet(0xFFFFFFFC, 2) == 255 && Octet(0xFFFFFFFC, 3) == 252;
    } else if k == 31 {
      assert PrefixMask(31) == 0xFFFFFFFE;
      assert Octet(0xFFFFFFFE, 0) == 255 && Octet(0xFFFFFFFE, 1) == 255;
      assert Octet(0xFFFFFFFE, 2) == 255 && Octet(0xFFFFFFFE, 3) == 254;
    } else {
      assert PrefixMask(32) == 0xFFFFFFFF;
      assert Octet(0xFFFFFFFF, 0) == 255 && Octet(0xFFFFFFFF, 1) == 255;
      assert Octet(0xFFFFFFFF, 2) == 255 && Octet(0xFFFFFFFF, 3) == 255;
    }
  }

  /**
   * Every octet of every mask is one of the nine netmask octets, and once an octet is not
   * 255 every octet after it is 0.
   */
  lemma MaskOctets(k: PrefixLength)
    ensures forall i :: 0 <= i < 4 ==> MaskOctet(Octet(PrefixMask(k), i))
    ensures forall i :: 0 <= i < 3 && Octet(PrefixMask(k), i) != 255 ==> Octet(PrefixMask(k), i + 1) == 0
  {
    if k < 9 {
      MaskOctets0To8(k);
    } else if k < 17 {
      MaskOctets9To16(k);
    } else if k < 25 {
      MaskOctets17To24(k);
    } else {
      MaskOctets25To32(k);
    }
  }

  /** A longer prefix has a strictly larger mask. */
  lemma {:induction false} PrefixMaskIncreasing(j: PrefixLength, k: PrefixLength)
    requires j < k
    ensures PrefixMask(j) < PrefixMask(k)
    decreases k - j
  {
    Pow2sShape();
    if j + 1 < k {
      PrefixMaskIncreasing(j + 1, k);
    }
  }

  /** `net_prefix_len_to_mask`: a stub that returns `None` whatever its argument. */
  function NetPrefixLenToMask<T>(length: T): (r: Maybe<string>)
    ensures r == None
  {
    None
  }
}

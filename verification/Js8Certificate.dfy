/** The proof, by evaluation of the constants, that the tables of Js8Tables agree: in every row
    of Nm the generator rows of the neighbors cancel, and the rows of an inverse matrix leave
    one row of the identity. */
module Js8Certificate {
  import opened Gf2
  import opened Js8Tables

  // The rows of the inverse of the parity half of the check matrix. The program has no such
  // table: it is a certificate that the checks determine the parity bits.
  const INVERSE_0 := Word(0x09b826ddbd90faff95a702)
  const INVERSE_1 := Word(0xa113fad50ae4bb8ea7f4a6)
  const INVERSE_2 := Word(0x76e3306c302b942fa1ef02)
  const INVERSE_3 := Word(0x3a5f2e88969359b17ae034)
  const INVERSE_4 := Word(0xda4c94599c75a817db149a)
  const INVERSE_5 := Word(0x588d1f15f7a74a59b37d66)
  const INVERSE_6 := Word(0x8caca64341780e36589526)
  const INVERSE_7 := Word(0xe67cf7635223e75ea8b304)
  const INVERSE_8 := Word(0xe627470954054730edaf9e)
  const INVERSE_9 := Word(0xaf34e09fcb230c4361c836)
  const INVERSE_10 := Word(0x39c4ebb8047fdf09bae592)
  const INVERSE_11 := Word(0x5fea10a76c86140f3a7e6e)
  const INVERSE_12 := Word(0x608b83cb2236b18c09c06a)
  const INVERSE_13 := Word(0x255c59be539d7dad3e20aa)
  const INVERSE_14 := Word(0x373061bdf933b5c7695934)
  const INVERSE_15 := Word(0xa2911b544b9b728c995bd6)
  const INVERSE_16 := Word(0xfdaa993b8533f6c54c6be2)
  const INVERSE_17 := Word(0xe25049bfc6d81b64638932)
  const INVERSE_18 := Word(0x88793ad58874f42bb7b346)
  const INVERSE_19 := Word(0xac1fa2f70ce244e5e4e53c)
  const INVERSE_20 := Word(0x61ca6765f5eeb4de04c24c)
  const INVERSE_21 := Word(0xdf0889279397538e992880)
  const INVERSE_22 := Word(0xcddc97c2b7e89a95444b16)
  const INVERSE_23 := Word(0xb0c51735cd02ab11ca6efa)
  const INVERSE_24 := Word(0x7047a9d0559997ab3dbc38)
  const INVERSE_25 := Word(0x4a49151480c26cda2604ec)
  const INVERSE_26 := Word(0x5f58829f3fabb2465b5e06)
  const INVERSE_27 := Word(0x38df2c12b4776931f3b39c)
  const INVERSE_28 := Word(0x3c99534efe9fdaaa93cf54)
  const INVERSE_29 := Word(0xbfa82a1c406adcf93e8238)
  const INVERSE_30 := Word(0xb04767b30d2c080fa46890)
  const INVERSE_31 := Word(0x2e5c493f871e15b7e288b8)
  const INVERSE_32 := Word(0x9920ec5e36d92a45caed0c)
  const INVERSE_33 := Word(0x8c8c45e5da850b65d6928a)
  const INVERSE_34 := Word(0x97217857b78c4459bd4140)
  const INVERSE_35 := Word(0x4455d855358f043575a460)
  const INVERSE_36 := Word(0xa1108f64f8af650cb94a92)
  const INVERSE_37 := Word(0x780e7dc55608fb474d51d4)
  const INVERSE_38 := Word(0xf6881ec4b6b3c48eb3ed26)
  const INVERSE_39 := Word(0x0eb68dc16b4ea78e39e258)
  const INVERSE_40 := Word(0x538d0f94232423436fd774)
  const INVERSE_41 := Word(0x0909d3c7beb512b2fcc76c)
  const INVERSE_42 := Word(0x6dcdce28f957690b905362)
  const INVERSE_43 := Word(0x85f566b292f38f426022d6)
  const INVERSE_44 := Word(0xd4404d7e3b223d62c8ac08)
  const INVERSE_45 := Word(0xe84328f267892e7e352d3a)
  const INVERSE_46 := Word(0xd7c0c93e86f2d37c0c850a)
  const INVERSE_47 := Word(0xc59cf2bb9061e7db11e23a)
  const INVERSE_48 := Word(0x31848ec523f6a247ef44be)
  const INVERSE_49 := Word(0xef7ce5dec3848c467158b4)
  const INVERSE_50 := Word(0x4200c1018153003656a900)
  const INVERSE_51 := Word(0xefc5b148295d9e35df2a7e)
  const INVERSE_52 := Word(0x26148d5a086b90c5741b32)
  const INVERSE_53 := Word(0xa1f9ad36ad00632b9d76e0)
  const INVERSE_54 := Word(0x8515e0683206775d2f0c58)
  const INVERSE_55 := Word(0x1834fa98950330144aa790)
  const INVERSE_56 := Word(0x126c3803aaaec87a17799e)
  const INVERSE_57 := Word(0x373061bdf933b5d7695934)
  const INVERSE_58 := Word(0x095ba2d79781cb761cf72a)
  const INVERSE_59 := Word(0x36100cc1fdfa2606ab253a)
  const INVERSE_60 := Word(0x51549d6607c8b381039c36)
  const INVERSE_61 := Word(0x78bf7953b73581984367ba)
  const INVERSE_62 := Word(0xb37fc2d6a04a73f4b00d38)
  const INVERSE_63 := Word(0x259fbf30d061b0eb71662c)
  const INVERSE_64 := Word(0x476c7807aaac825211f996)
  const INVERSE_65 := Word(0xd6015af02d22413c65efec)
  const INVERSE_66 := Word(0x1a8dde14f6f44a6fe5d466)
  const INVERSE_67 := Word(0xa2a92f3667ace36bdd1764)
  const INVERSE_68 := Word(0x4777c86dacaa223c54e50c)
  const INVERSE_69 := Word(0xd71a9d5a9d2bf7042c99e2)
  const INVERSE_70 := Word(0xcf5cf57cb2cc1b870908b4)
  const INVERSE_71 := Word(0x33048c5f011292cf66171e)
  const INVERSE_72 := Word(0x6983500c9c83a33ef50706)
  const INVERSE_73 := Word(0xd3d4c77ae52eb9238dcd8c)
  const INVERSE_74 := Word(0x5afdef950064dcccf90a56)
  const INVERSE_75 := Word(0x785fef8917c079872c4934)
  const INVERSE_76 := Word(0x27e46f623a8eef48772fba)
  const INVERSE_77 := Word(0x5fb9f2eb0e862757bb364c)
  const INVERSE_78 := Word(0x324768d1d6ca979d6b1538)
  const INVERSE_79 := Word(0xeb599a70786d09d69f4e5e)
  const INVERSE_80 := Word(0xfc581903941e38d2ab0fa8)
  const INVERSE_81 := Word(0x4dedfe88881ffecae80362)
  const INVERSE_82 := Word(0x09b9462b737e796b77997a)
  const INVERSE_83 := Word(0x47deea3ff985241b70d97e)
  const INVERSE_84 := Word(0x7ef124113ed730a5045e60)
  const INVERSE_85 := Word(0x88984ba1b959613e57db0c)
  const INVERSE_86 := Word(0x76d1562a70b95fee51f7de)

  function InverseRow(i: nat): Word {
    if i < 6 then InverseRow0(i) else
    if i < 12 then InverseRow6(i) else
    if i < 18 then InverseRow12(i) else
    if i < 24 then InverseRow18(i) else
    if i < 30 then InverseRow24(i) else
    if i < 36 then InverseRow30(i) else
    if i < 42 then InverseRow36(i) else
    if i < 48 then InverseRow42(i) else
    if i < 54 then InverseRow48(i) else
    if i < 60 then InverseRow54(i) else
    if i < 66 then InverseRow60(i) else
    if i < 72 then InverseRow66(i) else
    if i < 78 then InverseRow72(i) else
    if i < 84 then InverseRow78(i) else
    InverseRow84(i)
  }

  function InverseRow0(i: nat): Word {
    match i
    case 0 => INVERSE_0 case 1 => INVERSE_1 case 2 => INVERSE_2 case 3 => INVERSE_3 case 4 => INVERSE_4
    case _ => INVERSE_5
  }

  function InverseRow6(i: nat): Word {
    match i
    case 6 => INVERSE_6 case 7 => INVERSE_7 case 8 => INVERSE_8 case 9 => INVERSE_9 case 10 => INVERSE_10
    case _ => INVERSE_11
  }

  function InverseRow12(i: nat): Word {
    match i
    case 12 => INVERSE_12 case 13 => INVERSE_13 case 14 => INVERSE_14 case 15 => INVERSE_15 case 16 => INVERSE_16
    case _ => INVERSE_17
  }

  function InverseRow18(i: nat): Word {
    match i
    case 18 => INVERSE_18 case 19 => INVERSE_19 case 20 => INVERSE_20 case 21 => INVERSE_21 case 22 => INVERSE_22
    case _ => INVERSE_23
  }

  function InverseRow24(i: nat): Word {
    match i
    case 24 => INVERSE_24 case 25 => INVERSE_25 case 26 => INVERSE_26 case 27 => INVERSE_27 case 28 => INVERSE_28
    case _ => INVERSE_29
  }

  function InverseRow30(i: nat): Word {
    match i
    case 30 => INVERSE_30 case 31 => INVERSE_31 case 32 => INVERSE_32 case 33 => INVERSE_33 case 34 => INVERSE_34
    case _ => INVERSE_35
  }

  function InverseRow36(i: nat): Word {
    match i
    case 36 => INVERSE_36 case 37 => INVERSE_37 case 38 => INVERSE_38 case 39 => INVERSE_39 case 40 => INVERSE_40
    case _ => INVERSE_41
  }

  function InverseRow42(i: nat): Word {
    match i
    case 42 => INVERSE_42 case 43 => INVERSE_43 case 44 => INVERSE_44 case 45 => INVERSE_45 case 46 => INVERSE_46
    case _ => INVERSE_47
  }

  function InverseRow48(i: nat): Word {
    match i
    case 48 => INVERSE_48 case 49 => INVERSE_49 case 50 => INVERSE_50 case 51 => INVERSE_51 case 52 => INVERSE_52
    case _ => INVERSE_53
  }

  function InverseRow54(i: nat): Word {
    match i
    case 54 => INVERSE_54 case 55 => INVERSE_55 case 56 => INVERSE_56 case 57 => INVERSE_57 case 58 => INVERSE_58
    case _ => INVERSE_59
  }

  function InverseRow60(i: nat): Word {
    match i
    case 60 => INVERSE_60 case 61 => INVERSE_61 case 62 => INVERSE_62 case 63 => INVERSE_63 case 64 => INVERSE_64
    case _ => INVERSE_65
  }

  function InverseRow66(i: nat): Word {
    match i
    case 66 => INVERSE_66 case 67 => INVERSE_67 case 68 => INVERSE_68 case 69 => INVERSE_69 case 70 => INVERSE_70
    case _ => INVERSE_71
  }

  function InverseRow72(i: nat): Word {
    match i
    case 72 => INVERSE_72 case 73 => INVERSE_73 case 74 => INVERSE_74 case 75 => INVERSE_75 case 76 => INVERSE_76
    case _ => INVERSE_77
  }

  function InverseRow78(i: nat): Word {
    match i
    case 78 => INVERSE_78 case 79 => INVERSE_79 case 80 => INVERSE_80 case 81 => INVERSE_81 case 82 => INVERSE_82
    case _ => INVERSE_83
  }

  function InverseRow84(i: nat): Word {
    match i
    case 84 => INVERSE_84 case 85 => INVERSE_85 case _ => INVERSE_86
  }

  const ZERO := Word(0)

  // The certificate says nothing about message bits.
  function CertificateRow(n: BitIndex): Word {
    if n < 87 then InverseRow(n) else ZERO
  }

  predicate XorIs(total: Word, w0: Word, w1: Word, w2: Word, w3: Word, w4: Word, w5: Word, w6: Word) {
    w0.Xor(w1).Xor(w2).Xor(w3).Xor(w4).Xor(w5).Xor(w6) == total
  }

  // The generator rows of the first `valid` of seven codeword bits cancel.
  predicate Cancels(valid: Arity, n0: BitIndex, n1: BitIndex, n2: BitIndex, n3: BitIndex,
                    n4: BitIndex, n5: BitIndex, n6: BitIndex)
  {
    XorIs(ZERO, GeneratorRow(n0), GeneratorRow(n1), GeneratorRow(n2), GeneratorRow(n3), GeneratorRow(n4),
          if valid > 5 then GeneratorRow(n5) else ZERO, if valid > 6 then GeneratorRow(n6) else ZERO)
  }

  // Their certificate rows leave `total`.
  predicate Leaves(total: Word, valid: Arity, n0: BitIndex, n1: BitIndex, n2: BitIndex, n3: BitIndex,
                   n4: BitIndex, n5: BitIndex, n6: BitIndex)
  {
    XorIs(total, CertificateRow(n0), CertificateRow(n1), CertificateRow(n2), CertificateRow(n3), CertificateRow(n4),
          if valid > 5 then CertificateRow(n5) else ZERO, if valid > 6 then CertificateRow(n6) else ZERO)
  }

  // The rows of the neighbors of a check, in whatever table, add up to `total`.
  predicate NodeAdds(total: Word, rows: BitIndex -> Word, node: CheckNode) {
    XorIs(total, rows(node.n0), rows(node.n1), rows(node.n2), rows(node.n3), rows(node.n4),
          if node.valid > 5 then rows(node.n5) else ZERO, if node.valid > 6 then rows(node.n6) else ZERO)
  }

  lemma ParityRows0()
    ensures ParityRow(0) == PARITY_0 && ParityRow(1) == PARITY_1 && ParityRow(2) == PARITY_2
    ensures ParityRow(3) == PARITY_3 && ParityRow(4) == PARITY_4 && ParityRow(5) == PARITY_5
    ensures ParityRow(6) == PARITY_6 && ParityRow(7) == PARITY_7 && ParityRow(8) == PARITY_8
  {
  }

  lemma ParityRows9()
    ensures ParityRow(9) == PARITY_9 && ParityRow(10) == PARITY_10 && ParityRow(11) == PARITY_11
    ensures ParityRow(12) == PARITY_12 && ParityRow(13) == PARITY_13 && ParityRow(14) == PARITY_14
    ensures ParityRow(15) == PARITY_15 && ParityRow(16) == PARITY_16 && ParityRow(17) == PARITY_17
  {
  }

  lemma ParityRows18()
    ensures ParityRow(18) == PARITY_18 && ParityRow(19) == PARITY_19 && ParityRow(20) == PARITY_20
    ensures ParityRow(21) == PARITY_21 && ParityRow(22) == PARITY_22 && ParityRow(23) == PARITY_23
    ensures ParityRow(24) == PARITY_24 && ParityRow(25) == PARITY_25 && ParityRow(26) == PARITY_26
  {
  }

  lemma ParityRows27()
    ensures ParityRow(27) == PARITY_27 && ParityRow(28) == PARITY_28 && ParityRow(29) == PARITY_29
    ensures ParityRow(30) == PARITY_30 && ParityRow(31) == PARITY_31 && ParityRow(32) == PARITY_32
    ensures ParityRow(33) == PARITY_33 && ParityRow(34) == PARITY_34 && ParityRow(35) == PARITY_35
  {
  }

  lemma ParityRows36()
    ensures ParityRow(36) == PARITY_36 && ParityRow(37) == PARITY_37 && ParityRow(38) == PARITY_38
    ensures ParityRow(39) == PARITY_39 && ParityRow(40) == PARITY_40 && ParityRow(41) == PARITY_41
    ensures ParityRow(42) == PARITY_42 && ParityRow(43) == PARITY_43 && ParityRow(44) == PARITY_44
  {
  }

  lemma ParityRows45()
    ensures ParityRow(45) == PARITY_45 && ParityRow(46) == PARITY_46 && ParityRow(47) == PARITY_47
    ensures ParityRow(48) == PARITY_48 && ParityRow(49) == PARITY_49 && ParityRow(50) == PARITY_50
    ensures ParityRow(51) == PARITY_51 && ParityRow(52) == PARITY_52 && ParityRow(53) == PARITY_53
  {
  }

  lemma ParityRows54()
    ensures ParityRow(54) == PARITY_54 && ParityRow(55) == PARITY_55 && ParityRow(56) == PARITY_56
    ensures ParityRow(57) == PARITY_57 && ParityRow(58) == PARITY_58 && ParityRow(59) == PARITY_59
    ensures ParityRow(60) == PARITY_60 && ParityRow(61) == PARITY_61 && ParityRow(62) == PARITY_62
  {
  }

  lemma ParityRows63()
    ensures ParityRow(63) == PARITY_63 && ParityRow(64) == PARITY_64 && ParityRow(65) == PARITY_65
    ensures ParityRow(66) == PARITY_66 && ParityRow(67) == PARITY_67 && ParityRow(68) == PARITY_68
    ensures ParityRow(69) == PARITY_69 && ParityRow(70) == PARITY_70 && ParityRow(71) == PARITY_71
  {
  }

  lemma ParityRows72()
    ensures ParityRow(72) == PARITY_72 && ParityRow(73) == PARITY_73 && ParityRow(74) == PARITY_74
    ensures ParityRow(75) == PARITY_75 && ParityRow(76) == PARITY_76 && ParityRow(77) == PARITY_77
    ensures ParityRow(78) == PARITY_78 && ParityRow(79) == PARITY_79 && ParityRow(80) == PARITY_80
  {
  }

  lemma ParityRows81()
    ensures ParityRow(81) == PARITY_81 && ParityRow(82) == PARITY_82 && ParityRow(83) == PARITY_83
    ensures ParityRow(84) == PARITY_84 && ParityRow(85) == PARITY_85 && ParityRow(86) == PARITY_86
  {
  }

  lemma InverseRows0()
    ensures InverseRow(0) == INVERSE_0 && InverseRow(1) == INVERSE_1 && InverseRow(2) == INVERSE_2
    ensures InverseRow(3) == INVERSE_3 && InverseRow(4) == INVERSE_4 && InverseRow(5) == INVERSE_5
    ensures InverseRow(6) == INVERSE_6 && InverseRow(7) == INVERSE_7 && InverseRow(8) == INVERSE_8
  {
  }

  lemma InverseRows9()
    ensures InverseRow(9) == INVERSE_9 && InverseRow(10) == INVERSE_10 && InverseRow(11) == INVERSE_11
    ensures InverseRow(12) == INVERSE_12 && InverseRow(13) == INVERSE_13 && InverseRow(14) == INVERSE_14
    ensures InverseRow(15) == INVERSE_15 && InverseRow(16) == INVERSE_16 && InverseRow(17) == INVERSE_17
  {
  }

  lemma InverseRows18()
    ensures InverseRow(18) == INVERSE_18 && InverseRow(19) == INVERSE_19 && InverseRow(20) == INVERSE_20
    ensures InverseRow(21) == INVERSE_21 && InverseRow(22) == INVERSE_22 && InverseRow(23) == INVERSE_23
    ensures InverseRow(24) == INVERSE_24 && InverseRow(25) == INVERSE_25 && InverseRow(26) == INVERSE_26
  {
  }

  lemma InverseRows27()
    ensures InverseRow(27) == INVERSE_27 && InverseRow(28) == INVERSE_28 && InverseRow(29) == INVERSE_29
    ensures InverseRow(30) == INVERSE_30 && InverseRow(31) == INVERSE_31 && InverseRow(32) == INVERSE_32
    ensures InverseRow(33) == INVERSE_33 && InverseRow(34) == INVERSE_34 && InverseRow(35) == INVERSE_35
  {
  }

  lemma InverseRows36()
    ensures InverseRow(36) == INVERSE_36 && InverseRow(37) == INVERSE_37 && InverseRow(38) == INVERSE_38
    ensures InverseRow(39) == INVERSE_39 && InverseRow(40) == INVERSE_40 && InverseRow(41) == INVERSE_41
    ensures InverseRow(42) == INVERSE_42 && InverseRow(43) == INVERSE_43 && InverseRow(44) == INVERSE_44
  {
  }

  lemma InverseRows45()
    ensures InverseRow(45) == INVERSE_45 && InverseRow(46) == INVERSE_46 && InverseRow(47) == INVERSE_47
    ensures InverseRow(48) == INVERSE_48 && InverseRow(49) == INVERSE_49 && InverseRow(50) == INVERSE_50
    ensures InverseRow(51) == INVERSE_51 && InverseRow(52) == INVERSE_52 && InverseRow(53) == INVERSE_53
  {
  }

  lemma InverseRows54()
    ensures InverseRow(54) == INVERSE_54 && InverseRow(55) == INVERSE_55 && InverseRow(56) == INVERSE_56
    ensures InverseRow(57) == INVERSE_57 && InverseRow(58) == INVERSE_58 && InverseRow(59) == INVERSE_59
    ensures InverseRow(60) == INVERSE_60 && InverseRow(61) == INVERSE_61 && InverseRow(62) == INVERSE_62
  {
  }

  lemma InverseRows63()
    ensures InverseRow(63) == INVERSE_63 && InverseRow(64) == INVERSE_64 && InverseRow(65) == INVERSE_65
    ensures InverseRow(66) == INVERSE_66 && InverseRow(67) == INVERSE_67 && InverseRow(68) == INVERSE_68
    ensures InverseRow(69) == INVERSE_69 && InverseRow(70) == INVERSE_70 && InverseRow(71) == INVERSE_71
  {
  }

  lemma InverseRows72()
    ensures InverseRow(72) == INVERSE_72 && InverseRow(73) == INVERSE_73 && InverseRow(74) == INVERSE_74
    ensures InverseRow(75) == INVERSE_75 && InverseRow(76) == INVERSE_76 && InverseRow(77) == INVERSE_77
    ensures InverseRow(78) == INVERSE_78 && InverseRow(79) == INVERSE_79 && InverseRow(80) == INVERSE_80
  {
  }

  lemma InverseRows81()
    ensures InverseRow(81) == INVERSE_81 && InverseRow(82) == INVERSE_82 && InverseRow(83) == INVERSE_83
    ensures InverseRow(84) == INVERSE_84 && InverseRow(85) == INVERSE_85 && InverseRow(86) == INVERSE_86
  {
  }

  lemma UnitRows0()
    ensures UnitRow(0) == Word(0x8000000000000000000000) && UnitRow(1) == Word(0x4000000000000000000000)
    ensures UnitRow(2) == Word(0x2000000000000000000000) && UnitRow(3) == Word(0x1000000000000000000000)
    ensures UnitRow(4) == Word(0x0800000000000000000000) && UnitRow(5) == Word(0x0400000000000000000000)
    ensures UnitRow(6) == Word(0x0200000000000000000000) && UnitRow(7) == Word(0x0100000000000000000000)
    ensures UnitRow(8) == Word(0x0080000000000000000000) && UnitRow(9) == Word(0x0040000000000000000000)
    ensures UnitRow(10) == Word(0x0020000000000000000000) && UnitRow(11) == Word(0x0010000000000000000000)
    ensures UnitRow(12) == Word(0x0008000000000000000000) && UnitRow(13) == Word(0x0004000000000000000000)
    ensures UnitRow(14) == Word(0x0002000000000000000000)
  {
  }

  lemma UnitRows15()
    ensures UnitRow(15) == Word(0x0001000000000000000000) && UnitRow(16) == Word(0x0000800000000000000000)
    ensures UnitRow(17) == Word(0x0000400000000000000000) && UnitRow(18) == Word(0x0000200000000000000000)
    ensures UnitRow(19) == Word(0x0000100000000000000000) && UnitRow(20) == Word(0x0000080000000000000000)
    ensures UnitRow(21) == Word(0x0000040000000000000000) && UnitRow(22) == Word(0x0000020000000000000000)
    ensures UnitRow(23) == Word(0x0000010000000000000000) && UnitRow(24) == Word(0x0000008000000000000000)
    ensures UnitRow(25) == Word(0x0000004000000000000000) && UnitRow(26) == Word(0x0000002000000000000000)
    ensures UnitRow(27) == Word(0x0000001000000000000000) && UnitRow(28) == Word(0x0000000800000000000000)
    ensures UnitRow(29) == Word(0x0000000400000000000000)
  {
  }

  lemma UnitRows30()
    ensures UnitRow(30) == Word(0x0000000200000000000000) && UnitRow(31) == Word(0x0000000100000000000000)
    ensures UnitRow(32) == Word(0x0000000080000000000000) && UnitRow(33) == Word(0x0000000040000000000000)
    ensures UnitRow(34) == Word(0x0000000020000000000000) && UnitRow(35) == Word(0x0000000010000000000000)
    ensures UnitRow(36) == Word(0x0000000008000000000000) && UnitRow(37) == Word(0x0000000004000000000000)
    ensures UnitRow(38) == Word(0x0000000002000000000000) && UnitRow(39) == Word(0x0000000001000000000000)
    ensures UnitRow(40) == Word(0x0000000000800000000000) && UnitRow(41) == Word(0x0000000000400000000000)
    ensures UnitRow(42) == Word(0x0000000000200000000000) && UnitRow(43) == Word(0x0000000000100000000000)
    ensures UnitRow(44) == Word(0x0000000000080000000000)
  {
  }

  lemma UnitRows45()
    ensures UnitRow(45) == Word(0x0000000000040000000000) && UnitRow(46) == Word(0x0000000000020000000000)
    ensures UnitRow(47) == Word(0x0000000000010000000000) && UnitRow(48) == Word(0x0000000000008000000000)
    ensures UnitRow(49) == Word(0x0000000000004000000000) && UnitRow(50) == Word(0x0000000000002000000000)
    ensures UnitRow(51) == Word(0x0000000000001000000000) && UnitRow(52) == Word(0x0000000000000800000000)
    ensures UnitRow(53) == Word(0x0000000000000400000000) && UnitRow(54) == Word(0x0000000000000200000000)
    ensures UnitRow(55) == Word(0x0000000000000100000000) && UnitRow(56) == Word(0x0000000000000080000000)
    ensures UnitRow(57) == Word(0x0000000000000040000000) && UnitRow(58) == Word(0x0000000000000020000000)
    ensures UnitRow(59) == Word(0x0000000000000010000000)
  {
  }

  lemma UnitRows60()
    ensures UnitRow(60) == Word(0x0000000000000008000000) && UnitRow(61) == Word(0x0000000000000004000000)
    ensures UnitRow(62) == Word(0x0000000000000002000000) && UnitRow(63) == Word(0x0000000000000001000000)
    ensures UnitRow(64) == Word(0x0000000000000000800000) && UnitRow(65) == Word(0x0000000000000000400000)
    ensures UnitRow(66) == Word(0x0000000000000000200000) && UnitRow(67) == Word(0x0000000000000000100000)
    ensures UnitRow(68) == Word(0x0000000000000000080000) && UnitRow(69) == Word(0x0000000000000000040000)
    ensures UnitRow(70) == Word(0x0000000000000000020000) && UnitRow(71) == Word(0x0000000000000000010000)
    ensures UnitRow(72) == Word(0x0000000000000000008000) && UnitRow(73) == Word(0x0000000000000000004000)
    ensures UnitRow(74) == Word(0x0000000000000000002000)
  {
  }

  lemma UnitRows75()
    ensures UnitRow(75) == Word(0x0000000000000000001000) && UnitRow(76) == Word(0x0000000000000000000800)
    ensures UnitRow(77) == Word(0x0000000000000000000400) && UnitRow(78) == Word(0x0000000000000000000200)
    ensures UnitRow(79) == Word(0x0000000000000000000100) && UnitRow(80) == Word(0x0000000000000000000080)
    ensures UnitRow(81) == Word(0x0000000000000000000040) && UnitRow(82) == Word(0x0000000000000000000020)
    ensures UnitRow(83) == Word(0x0000000000000000000010) && UnitRow(84) == Word(0x0000000000000000000008)
    ensures UnitRow(85) == Word(0x0000000000000000000004) && UnitRow(86) == Word(0x0000000000000000000002)
  {
  }

  lemma CancelsFrom0()
    ensures Cancels(6, 0, 29, 59, 88, 117, 146, 0)
    ensures Cancels(6, 1, 30, 60, 89, 118, 146, 0)
    ensures Cancels(6, 2, 31, 61, 90, 119, 147, 0)
  {
    hide ParityRow, UnitRow;
    UnitRows0(); UnitRows15(); UnitRows30(); UnitRows45(); UnitRows60(); UnitRows75();
    ParityRows0(); ParityRows9(); ParityRows18(); ParityRows27(); ParityRows36(); ParityRows45(); ParityRows54();
    ParityRows63(); ParityRows72(); ParityRows81();
  }

  lemma CancelsFrom3()
    ensures Cancels(6, 3, 32, 62, 91, 120, 148, 0)
    ensures Cancels(6, 1, 33, 63, 92, 121, 149, 0)
    ensures Cancels(6, 4, 32, 64, 93, 122, 147, 0)
  {
    hide ParityRow, UnitRow;
    UnitRows0(); UnitRows15(); UnitRows30(); UnitRows45(); UnitRows60(); UnitRows75();
    ParityRows0(); ParityRows9(); ParityRows18(); ParityRows27(); ParityRows36(); ParityRows45(); ParityRows54();
    ParityRows63(); ParityRows72(); ParityRows81();
  }

  lemma CancelsFrom6()
    ensures Cancels(6, 5, 33, 65, 94, 123, 150, 0)
    ensures Cancels(6, 6, 34, 66, 95, 119, 151, 0)
    ensures Cancels(6, 7, 35, 67, 96, 124, 152, 0)
  {
    hide ParityRow, UnitRow;
    UnitRows0(); UnitRows15(); UnitRows30(); UnitRows45(); UnitRows60(); UnitRows75();
    ParityRows0(); ParityRows9(); ParityRows18(); ParityRows27(); ParityRows36(); ParityRows45(); ParityRows54();
    ParityRows63(); ParityRows72(); ParityRows81();
  }

  lemma CancelsFrom9()
    ensures Cancels(6, 8, 36, 68, 97, 125, 151, 0)
    ensures Cancels(6, 9, 37, 69, 98, 126, 153, 0)
    ensures Cancels(6, 10, 38, 70, 99, 125, 154, 0)
  {
    hide ParityRow, UnitRow;
    UnitRows0(); UnitRows15(); UnitRows30(); UnitRows45(); UnitRows60(); UnitRows75();
    ParityRows0(); ParityRows9(); ParityRows18(); ParityRows27(); ParityRows36(); ParityRows45(); ParityRows54();
    ParityRows63(); ParityRows72(); ParityRows81();
  }

  lemma CancelsFrom12()
    ensures Cancels(6, 11, 39, 60, 100, 127, 144, 0)
    ensures Cancels(6, 9, 32, 59, 94, 127, 155, 0)
    ensures Cancels(6, 12, 40, 71, 96, 125, 156, 0)
  {
    hide ParityRow, UnitRow;
    UnitRows0(); UnitRows15(); UnitRows30(); UnitRows45(); UnitRows60(); UnitRows75();
    ParityRows0(); ParityRows9(); ParityRows18(); ParityRows27(); ParityRows36(); ParityRows45(); ParityRows54();
    ParityRows63(); ParityRows72(); ParityRows81();
  }

  lemma CancelsFrom15()
    ensures Cancels(6, 12, 41, 72, 89, 128, 155, 0)
    ensures Cancels(6, 13, 38, 73, 98, 129, 157, 0)
    ensures Cancels(6, 14, 42, 74, 101, 130, 158, 0)
  {
    hide ParityRow, UnitRow;
    UnitRows0(); UnitRows15(); UnitRows30(); UnitRows45(); UnitRows60(); UnitRows75();
    ParityRows0(); ParityRows9(); ParityRows18(); ParityRows27(); ParityRows36(); ParityRows45(); ParityRows54();
    ParityRows63(); ParityRows72(); ParityRows81();
  }

  lemma CancelsFrom18()
    ensures Cancels(6, 15, 42, 70, 102, 117, 159, 0)
    ensures Cancels(6, 16, 43, 75, 97, 129, 155, 0)
    ensures Cancels(6, 17, 44, 59, 95, 131, 160, 0)
  {
    hide ParityRow, UnitRow;
    UnitRows0(); UnitRows15(); UnitRows30(); UnitRows45(); UnitRows60(); UnitRows75();
    ParityRows0(); ParityRows9(); ParityRows18(); ParityRows27(); ParityRows36(); ParityRows45(); ParityRows54();
    ParityRows63(); ParityRows72(); ParityRows81();
  }

  lemma CancelsFrom21()
    ensures Cancels(6, 18, 45, 72, 82, 132, 161, 0)
    ensures Cancels(6, 11, 37, 76, 101, 133, 162, 0)
    ensures Cancels(6, 18, 46, 77, 103, 134, 146, 0)
  {
    hide ParityRow, UnitRow;
    UnitRows0(); UnitRows15(); UnitRows30(); UnitRows45(); UnitRows60(); UnitRows75();
    ParityRows0(); ParityRows9(); ParityRows18(); ParityRows27(); ParityRows36(); ParityRows45(); ParityRows54();
    ParityRows63(); ParityRows72(); ParityRows81();
  }

  lemma CancelsFrom24()
    ensures Cancels(6, 0, 31, 76, 104, 135, 163, 0)
    ensures Cancels(6, 19, 47, 72, 105, 122, 162, 0)
    ensures Cancels(6, 20, 40, 78, 106, 136, 164, 0)
  {
    hide ParityRow, UnitRow;
    UnitRows0(); UnitRows15(); UnitRows30(); UnitRows45(); UnitRows60(); UnitRows75();
    ParityRows0(); ParityRows9(); ParityRows18(); ParityRows27(); ParityRows36(); ParityRows45(); ParityRows54();
    ParityRows63(); ParityRows72(); ParityRows81();
  }

  lemma CancelsFrom27()
    ensures Cancels(6, 21, 41, 65, 107, 137, 151, 0)
    ensures Cancels(6, 17, 41, 79, 108, 138, 153, 0)
    ensures Cancels(6, 22, 48, 80, 109, 134, 165, 0)
  {
    hide ParityRow, UnitRow;
    UnitRows0(); UnitRows15(); UnitRows30(); UnitRows45(); UnitRows60(); UnitRows75();
    ParityRows0(); ParityRows9(); ParityRows18(); ParityRows27(); ParityRows36(); ParityRows45(); ParityRows54();
    ParityRows63(); ParityRows72(); ParityRows81();
  }

  lemma CancelsFrom30()
    ensures Cancels(6, 15, 49, 81, 90, 128, 157, 0)
    ensures Cancels(6, 2, 47, 62, 106, 123, 166, 0)
    ensures Cancels(6, 5, 50, 66, 110, 133, 154, 0)
  {
    hide ParityRow, UnitRow;
    UnitRows0(); UnitRows15(); UnitRows30(); UnitRows45(); UnitRows60(); UnitRows75();
    ParityRows0(); ParityRows9(); ParityRows18(); ParityRows27(); ParityRows36(); ParityRows45(); ParityRows54();
    ParityRows63(); ParityRows72(); ParityRows81();
  }

  lemma CancelsFrom33()
    ensures Cancels(6, 23, 34, 76, 99, 121, 161, 0)
    ensures Cancels(6, 19, 44, 75, 111, 139, 156, 0)
    ensures Cancels(6, 20, 35, 63, 91, 129, 158, 0)
  {
    hide ParityRow, UnitRow;
    UnitRows0(); UnitRows15(); UnitRows30(); UnitRows45(); UnitRows60(); UnitRows75();
    ParityRows0(); ParityRows9(); ParityRows18(); ParityRows27(); ParityRows36(); ParityRows45(); ParityRows54();
    ParityRows63(); ParityRows72(); ParityRows81();
  }

  lemma CancelsFrom36()
    ensures Cancels(6, 7, 51, 82, 110, 117, 165, 0)
    ensures Cancels(6, 20, 52, 83, 112, 137, 167, 0)
    ensures Cancels(6, 24, 50, 78, 88, 121, 157, 0)
  {
    hide ParityRow, UnitRow;
    UnitRows0(); UnitRows15(); UnitRows30(); UnitRows45(); UnitRows60(); UnitRows75();
    ParityRows0(); ParityRows9(); ParityRows18(); ParityRows27(); ParityRows36(); ParityRows45(); ParityRows54();
    ParityRows63(); ParityRows72(); ParityRows81();
  }

  lemma CancelsFrom39()
    ensures Cancels(7, 21, 43, 74, 106, 132, 154, 171)
    ensures Cancels(6, 8, 53, 83, 89, 140, 168, 0)
    ensures Cancels(6, 21, 53, 84, 109, 135, 160, 0)
  {
    hide ParityRow, UnitRow;
    UnitRows0(); UnitRows15(); UnitRows30(); UnitRows45(); UnitRows60(); UnitRows75();
    ParityRows0(); ParityRows9(); ParityRows18(); ParityRows27(); ParityRows36(); ParityRows45(); ParityRows54();
    ParityRows63(); ParityRows72(); ParityRows81();
  }

  lemma CancelsFrom42()
    ensures Cancels(6, 7, 36, 64, 101, 128, 169, 0)
    ensures Cancels(6, 18, 38, 84, 113, 138, 149, 0)
    ensures Cancels(6, 25, 54, 70, 92, 141, 166, 0)
  {
    hide ParityRow, UnitRow;
    UnitRows0(); UnitRows15(); UnitRows30(); UnitRows45(); UnitRows60(); UnitRows75();
    ParityRows0(); ParityRows9(); ParityRows18(); ParityRows27(); ParityRows36(); ParityRows45(); ParityRows54();
    ParityRows63(); ParityRows72(); ParityRows81();
  }

  lemma CancelsFrom45()
    ensures Cancels(7, 26, 55, 64, 95, 132, 159, 173)
    ensures Cancels(6, 27, 30, 85, 99, 116, 170, 0)
    ensures Cancels(6, 27, 51, 69, 103, 131, 143, 0)
  {
    hide ParityRow, UnitRow;
    UnitRows0(); UnitRows15(); UnitRows30(); UnitRows45(); UnitRows60(); UnitRows75();
    ParityRows0(); ParityRows9(); ParityRows18(); ParityRows27(); ParityRows36(); ParityRows45(); ParityRows54();
    ParityRows63(); ParityRows72(); ParityRows81();
  }

  lemma CancelsFrom48()
    ensures Cancels(6, 23, 56, 67, 94, 136, 141, 0)
    ensures Cancels(6, 6, 29, 71, 109, 142, 150, 0)
    ensures Cancels(6, 3, 50, 75, 114, 126, 167, 0)
  {
    hide ParityRow, UnitRow;
    UnitRows0(); UnitRows15(); UnitRows30(); UnitRows45(); UnitRows60(); UnitRows75();
    ParityRows0(); ParityRows9(); ParityRows18(); ParityRows27(); ParityRows36(); ParityRows45(); ParityRows54();
    ParityRows63(); ParityRows72(); ParityRows81();
  }

  lemma CancelsFrom51()
    ensures Cancels(6, 15, 44, 86, 113, 124, 171, 0)
    ensures Cancels(6, 14, 29, 85, 114, 122, 149, 0)
    ensures Cancels(6, 22, 45, 63, 90, 143, 172, 0)
  {
    hide ParityRow, UnitRow;
    UnitRows0(); UnitRows15(); UnitRows30(); UnitRows45(); UnitRows60(); UnitRows75();
    ParityRows0(); ParityRows9(); ParityRows18(); ParityRows27(); ParityRows36(); ParityRows45(); ParityRows54();
    ParityRows63(); ParityRows72(); ParityRows81();
  }

  lemma CancelsFrom54()
    ensures Cancels(6, 22, 34, 74, 112, 144, 152, 0)
    ensures Cancels(7, 13, 40, 86, 107, 116, 148, 169)
    ensures Cancels(6, 24, 39, 84, 93, 123, 158, 0)
  {
    hide ParityRow, UnitRow;
    UnitRows0(); UnitRows15(); UnitRows30(); UnitRows45(); UnitRows60(); UnitRows75();
    ParityRows0(); ParityRows9(); ParityRows18(); ParityRows27(); ParityRows36(); ParityRows45(); ParityRows54();
    ParityRows63(); ParityRows72(); ParityRows81();
  }

  lemma CancelsFrom57()
    ensures Cancels(6, 24, 57, 68, 115, 142, 173, 0)
    ensures Cancels(6, 28, 42, 60, 115, 131, 161, 0)
    ensures Cancels(6, 14, 57, 87, 111, 120, 163, 0)
  {
    hide ParityRow, UnitRow;
    UnitRows0(); UnitRows15(); UnitRows30(); UnitRows45(); UnitRows60(); UnitRows75();
    ParityRows0(); ParityRows9(); ParityRows18(); ParityRows27(); ParityRows36(); ParityRows45(); ParityRows54();
    ParityRows63(); ParityRows72(); ParityRows81();
  }

  lemma CancelsFrom60()
    ensures Cancels(7, 3, 58, 71, 113, 118, 162, 172)
    ensures Cancels(6, 26, 46, 85, 97, 133, 152, 0)
    ensures Cancels(5, 4, 43, 77, 108, 140, 0, 0)
  {
    hide ParityRow, UnitRow;
    UnitRows0(); UnitRows15(); UnitRows30(); UnitRows45(); UnitRows60(); UnitRows75();
    ParityRows0(); ParityRows9(); ParityRows18(); ParityRows27(); ParityRows36(); ParityRows45(); ParityRows54();
    ParityRows63(); ParityRows72(); ParityRows81();
  }

  lemma CancelsFrom63()
    ensures Cancels(6, 9, 45, 68, 102, 135, 164, 0)
    ensures Cancels(6, 8, 49, 58, 92, 127, 163, 0)
    ensures Cancels(6, 13, 56, 57, 108, 119, 165, 0)
  {
    hide ParityRow, UnitRow;
    UnitRows0(); UnitRows15(); UnitRows30(); UnitRows45(); UnitRows60(); UnitRows75();
    ParityRows0(); ParityRows9(); ParityRows18(); ParityRows27(); ParityRows36(); ParityRows45(); ParityRows54();
    ParityRows63(); ParityRows72(); ParityRows81();
  }

  lemma CancelsFrom66()
    ensures Cancels(6, 16, 54, 61, 115, 124, 153, 0)
    ensures Cancels(6, 2, 53, 69, 100, 139, 169, 0)
    ensures Cancels(6, 0, 35, 81, 107, 126, 173, 0)
  {
    hide ParityRow, UnitRow;
    UnitRows0(); UnitRows15(); UnitRows30(); UnitRows45(); UnitRows60(); UnitRows75();
    ParityRows0(); ParityRows9(); ParityRows18(); ParityRows27(); ParityRows36(); ParityRows45(); ParityRows54();
    ParityRows63(); ParityRows72(); ParityRows81();
  }

  lemma CancelsFrom69()
    ensures Cancels(5, 4, 52, 80, 104, 139, 0, 0)
    ensures Cancels(6, 28, 52, 66, 98, 141, 172, 0)
    ensures Cancels(6, 17, 48, 73, 96, 114, 166, 0)
  {
    hide ParityRow, UnitRow;
    UnitRows0(); UnitRows15(); UnitRows30(); UnitRows45(); UnitRows60(); UnitRows75();
    ParityRows0(); ParityRows9(); ParityRows18(); ParityRows27(); ParityRows36(); ParityRows45(); ParityRows54();
    ParityRows63(); ParityRows72(); ParityRows81();
  }

  lemma CancelsFrom72()
    ensures Cancels(6, 1, 56, 62, 102, 137, 156, 0)
    ensures Cancels(6, 25, 37, 78, 111, 134, 170, 0)
    ensures Cancels(6, 10, 51, 65, 87, 118, 147, 0)
  {
    hide ParityRow, UnitRow;
    UnitRows0(); UnitRows15(); UnitRows30(); UnitRows45(); UnitRows60(); UnitRows75();
    ParityRows0(); ParityRows9(); ParityRows18(); ParityRows27(); ParityRows36(); ParityRows45(); ParityRows54();
    ParityRows63(); ParityRows72(); ParityRows81();
  }

  lemma CancelsFrom75()
    ensures Cancels(6, 19, 39, 67, 116, 140, 159, 0)
    ensures Cancels(6, 10, 47, 80, 88, 145, 168, 0)
    ensures Cancels(6, 28, 46, 79, 91, 145, 171, 0)
  {
    hide ParityRow, UnitRow;
    UnitRows0(); UnitRows15(); UnitRows30(); UnitRows45(); UnitRows60(); UnitRows75();
    ParityRows0(); ParityRows9(); ParityRows18(); ParityRows27(); ParityRows36(); ParityRows45(); ParityRows54();
    ParityRows63(); ParityRows72(); ParityRows81();
  }

  lemma CancelsFrom78()
    ensures Cancels(6, 5, 31, 86, 103, 144, 168, 0)
    ensures Cancels(6, 26, 33, 73, 105, 130, 164, 0)
    ensures Cancels(5, 11, 55, 83, 87, 138, 0, 0)
  {
    hide ParityRow, UnitRow;
    UnitRows0(); UnitRows15(); UnitRows30(); UnitRows45(); UnitRows60(); UnitRows75();
    ParityRows0(); ParityRows9(); ParityRows18(); ParityRows27(); ParityRows36(); ParityRows45(); ParityRows54();
    ParityRows63(); ParityRows72(); ParityRows81();
  }

  lemma CancelsFrom81()
    ensures Cancels(6, 12, 55, 61, 110, 145, 170, 0)
    ensures Cancels(6, 25, 36, 79, 104, 143, 150, 0)
    ensures Cancels(6, 16, 30, 81, 112, 120, 160, 0)
  {
    hide ParityRow, UnitRow;
    UnitRows0(); UnitRows15(); UnitRows30(); UnitRows45(); UnitRows60(); UnitRows75();
    ParityRows0(); ParityRows9(); ParityRows18(); ParityRows27(); ParityRows36(); ParityRows45(); ParityRows54();
    ParityRows63(); ParityRows72(); ParityRows81();
  }

  lemma CancelsFrom84()
    ensures Cancels(5, 27, 48, 58, 93, 136, 0, 0)
    ensures Cancels(6, 6, 54, 82, 100, 130, 167, 0)
    ensures Cancels(6, 23, 49, 77, 105, 142, 148, 0)
  {
    hide ParityRow, UnitRow;
    UnitRows0(); UnitRows15(); UnitRows30(); UnitRows45(); UnitRows60(); UnitRows75();
    ParityRows0(); ParityRows9(); ParityRows18(); ParityRows27(); ParityRows36(); ParityRows45(); ParityRows54();
    ParityRows63(); ParityRows72(); ParityRows81();
  }

  lemma LeavesFrom0()
    ensures Leaves(UnitRow(0), 6, 0, 29, 59, 88, 117, 146, 0)
    ensures Leaves(UnitRow(1), 6, 1, 30, 60, 89, 118, 146, 0)
    ensures Leaves(UnitRow(2), 6, 2, 31, 61, 90, 119, 147, 0)
  {
    hide InverseRow, UnitRow;
    UnitRows0(); UnitRows15(); UnitRows30(); UnitRows45(); UnitRows60(); UnitRows75();
    InverseRows0(); InverseRows9(); InverseRows18(); InverseRows27(); InverseRows36(); InverseRows45();
    InverseRows54(); InverseRows63(); InverseRows72(); InverseRows81();
  }

  lemma LeavesFrom3()
    ensures Leaves(UnitRow(3), 6, 3, 32, 62, 91, 120, 148, 0)
    ensures Leaves(UnitRow(4), 6, 1, 33, 63, 92, 121, 149, 0)
    ensures Leaves(UnitRow(5), 6, 4, 32, 64, 93, 122, 147, 0)
  {
    hide InverseRow, UnitRow;
    UnitRows0(); UnitRows15(); UnitRows30(); UnitRows45(); UnitRows60(); UnitRows75();
    InverseRows0(); InverseRows9(); InverseRows18(); InverseRows27(); InverseRows36(); InverseRows45();
    InverseRows54(); InverseRows63(); InverseRows72(); InverseRows81();
  }

  lemma LeavesFrom6()
    ensures Leaves(UnitRow(6), 6, 5, 33, 65, 94, 123, 150, 0)
    ensures Leaves(UnitRow(7), 6, 6, 34, 66, 95, 119, 151, 0)
    ensures Leaves(UnitRow(8), 6, 7, 35, 67, 96, 124, 152, 0)
  {
    hide InverseRow, UnitRow;
    UnitRows0(); UnitRows15(); UnitRows30(); UnitRows45(); UnitRows60(); UnitRows75();
    InverseRows0(); InverseRows9(); InverseRows18(); InverseRows27(); InverseRows36(); InverseRows45();
    InverseRows54(); InverseRows63(); InverseRows72(); InverseRows81();
  }

  lemma LeavesFrom9()
    ensures Leaves(UnitRow(9), 6, 8, 36, 68, 97, 125, 151, 0)
    ensures Leaves(UnitRow(10), 6, 9, 37, 69, 98, 126, 153, 0)
    ensures Leaves(UnitRow(11), 6, 10, 38, 70, 99, 125, 154, 0)
  {
    hide InverseRow, UnitRow;
    UnitRows0(); UnitRows15(); UnitRows30(); UnitRows45(); UnitRows60(); UnitRows75();
    InverseRows0(); InverseRows9(); InverseRows18(); InverseRows27(); InverseRows36(); InverseRows45();
    InverseRows54(); InverseRows63(); InverseRows72(); InverseRows81();
  }

  lemma LeavesFrom12()
    ensures Leaves(UnitRow(12), 6, 11, 39, 60, 100, 127, 144, 0)
    ensures Leaves(UnitRow(13), 6, 9, 32, 59, 94, 127, 155, 0)
    ensures Leaves(UnitRow(14), 6, 12, 40, 71, 96, 125, 156, 0)
  {
    hide InverseRow, UnitRow;
    UnitRows0(); UnitRows15(); UnitRows30(); UnitRows45(); UnitRows60(); UnitRows75();
    InverseRows0(); InverseRows9(); InverseRows18(); InverseRows27(); InverseRows36(); InverseRows45();
    InverseRows54(); InverseRows63(); InverseRows72(); InverseRows81();
  }

  lemma LeavesFrom15()
    ensures Leaves(UnitRow(15), 6, 12, 41, 72, 89, 128, 155, 0)
    ensures Leaves(UnitRow(16), 6, 13, 38, 73, 98, 129, 157, 0)
    ensures Leaves(UnitRow(17), 6, 14, 42, 74, 101, 130, 158, 0)
  {
    hide InverseRow, UnitRow;
    UnitRows0(); UnitRows15(); UnitRows30(); UnitRows45(); UnitRows60(); UnitRows75();
    InverseRows0(); InverseRows9(); InverseRows18(); InverseRows27(); InverseRows36(); InverseRows45();
    InverseRows54(); InverseRows63(); InverseRows72(); InverseRows81();
  }

  lemma LeavesFrom18()
    ensures Leaves(UnitRow(18), 6, 15, 42, 70, 102, 117, 159, 0)
    ensures Leaves(UnitRow(19), 6, 16, 43, 75, 97, 129, 155, 0)
    ensures Leaves(UnitRow(20), 6, 17, 44, 59, 95, 131, 160, 0)
  {
    hide InverseRow, UnitRow;
    UnitRows0(); UnitRows15(); UnitRows30(); UnitRows45(); UnitRows60(); UnitRows75();
    InverseRows0(); InverseRows9(); InverseRows18(); InverseRows27(); InverseRows36(); InverseRows45();
    InverseRows54(); InverseRows63(); InverseRows72(); InverseRows81();
  }

  lemma LeavesFrom21()
    ensures Leaves(UnitRow(21), 6, 18, 45, 72, 82, 132, 161, 0)
    ensures Leaves(UnitRow(22), 6, 11, 37, 76, 101, 133, 162, 0)
    ensures Leaves(UnitRow(23), 6, 18, 46, 77, 103, 134, 146, 0)
  {
    hide InverseRow, UnitRow;
    UnitRows0(); UnitRows15(); UnitRows30(); UnitRows45(); UnitRows60(); UnitRows75();
    InverseRows0(); InverseRows9(); InverseRows18(); InverseRows27(); InverseRows36(); InverseRows45();
    InverseRows54(); InverseRows63(); InverseRows72(); InverseRows81();
  }

  lemma LeavesFrom24()
    ensures Leaves(UnitRow(24), 6, 0, 31, 76, 104, 135, 163, 0)
    ensures Leaves(UnitRow(25), 6, 19, 47, 72, 105, 122, 162, 0)
    ensures Leaves(UnitRow(26), 6, 20, 40, 78, 106, 136, 164, 0)
  {
    hide InverseRow, UnitRow;
    UnitRows0(); UnitRows15(); UnitRows30(); UnitRows45(); UnitRows60(); UnitRows75();
    InverseRows0(); InverseRows9(); InverseRows18(); InverseRows27(); InverseRows36(); InverseRows45();
    InverseRows54(); InverseRows63(); InverseRows72(); InverseRows81();
  }

  lemma LeavesFrom27()
    ensures Leaves(UnitRow(27), 6, 21, 41, 65, 107, 137, 151, 0)
    ensures Leaves(UnitRow(28), 6, 17, 41, 79, 108, 138, 153, 0)
    ensures Leaves(UnitRow(29), 6, 22, 48, 80, 109, 134, 165, 0)
  {
    hide InverseRow, UnitRow;
    UnitRows0(); UnitRows15(); UnitRows30(); UnitRows45(); UnitRows60(); UnitRows75();
    InverseRows0(); InverseRows9(); InverseRows18(); InverseRows27(); InverseRows36(); InverseRows45();
    InverseRows54(); InverseRows63(); InverseRows72(); InverseRows81();
  }

  lemma LeavesFrom30()
    ensures Leaves(UnitRow(30), 6, 15, 49, 81, 90, 128, 157, 0)
    ensures Leaves(UnitRow(31), 6, 2, 47, 62, 106, 123, 166, 0)
    ensures Leaves(UnitRow(32), 6, 5, 50, 66, 110, 133, 154, 0)
  {
    hide InverseRow, UnitRow;
    UnitRows0(); UnitRows15(); UnitRows30(); UnitRows45(); UnitRows60(); UnitRows75();
    InverseRows0(); InverseRows9(); InverseRows18(); InverseRows27(); InverseRows36(); InverseRows45();
    InverseRows54(); InverseRows63(); InverseRows72(); InverseRows81();
  }

  lemma LeavesFrom33()
    ensures Leaves(UnitRow(33), 6, 23, 34, 76, 99, 121, 161, 0)
    ensures Leaves(UnitRow(34), 6, 19, 44, 75, 111, 139, 156, 0)
    ensures Leaves(UnitRow(35), 6, 20, 35, 63, 91, 129, 158, 0)
  {
    hide InverseRow, UnitRow;
    UnitRows0(); UnitRows15(); UnitRows30(); UnitRows45(); UnitRows60(); UnitRows75();
    InverseRows0(); InverseRows9(); InverseRows18(); InverseRows27(); InverseRows36(); InverseRows45();
    InverseRows54(); InverseRows63(); InverseRows72(); InverseRows81();
  }

  lemma LeavesFrom36()
    ensures Leaves(UnitRow(36), 6, 7, 51, 82, 110, 117, 165, 0)
    ensures Leaves(UnitRow(37), 6, 20, 52, 83, 112, 137, 167, 0)
    ensures Leaves(UnitRow(38), 6, 24, 50, 78, 88, 121, 157, 0)
  {
    hide InverseRow, UnitRow;
    UnitRows0(); UnitRows15(); UnitRows30(); UnitRows45(); UnitRows60(); UnitRows75();
    InverseRows0(); InverseRows9(); InverseRows18(); InverseRows27(); InverseRows36(); InverseRows45();
    InverseRows54(); InverseRows63(); InverseRows72(); InverseRows81();
  }

  lemma LeavesFrom39()
    ensures Leaves(UnitRow(39), 7, 21, 43, 74, 106, 132, 154, 171)
    ensures Leaves(UnitRow(40), 6, 8, 53, 83, 89, 140, 168, 0)
    ensures Leaves(UnitRow(41), 6, 21, 53, 84, 109, 135, 160, 0)
  {
    hide InverseRow, UnitRow;
    UnitRows0(); UnitRows15(); UnitRows30(); UnitRows45(); UnitRows60(); UnitRows75();
    InverseRows0(); InverseRows9(); InverseRows18(); InverseRows27(); InverseRows36(); InverseRows45();
    InverseRows54(); InverseRows63(); InverseRows72(); InverseRows81();
  }

  lemma LeavesFrom42()
    ensures Leaves(UnitRow(42), 6, 7, 36, 64, 101, 128, 169, 0)
    ensures Leaves(UnitRow(43), 6, 18, 38, 84, 113, 138, 149, 0)
    ensures Leaves(UnitRow(44), 6, 25, 54, 70, 92, 141, 166, 0)
  {
    hide InverseRow, UnitRow;
    UnitRows0(); UnitRows15(); UnitRows30(); UnitRows45(); UnitRows60(); UnitRows75();
    InverseRows0(); InverseRows9(); InverseRows18(); InverseRows27(); InverseRows36(); InverseRows45();
    InverseRows54(); InverseRows63(); InverseRows72(); InverseRows81();
  }

  lemma LeavesFrom45()
    ensures Leaves(UnitRow(45), 7, 26, 55, 64, 95, 132, 159, 173)
    ensures Leaves(UnitRow(46), 6, 27, 30, 85, 99, 116, 170, 0)
    ensures Leaves(UnitRow(47), 6, 27, 51, 69, 103, 131, 143, 0)
  {
    hide InverseRow, UnitRow;
    UnitRows0(); UnitRows15(); UnitRows30(); UnitRows45(); UnitRows60(); UnitRows75();
    InverseRows0(); InverseRows9(); InverseRows18(); InverseRows27(); InverseRows36(); InverseRows45();
    InverseRows54(); InverseRows63(); InverseRows72(); InverseRows81();
  }

  lemma LeavesFrom48()
    ensures Leaves(UnitRow(48), 6, 23, 56, 67, 94, 136, 141, 0)
    ensures Leaves(UnitRow(49), 6, 6, 29, 71, 109, 142, 150, 0)
    ensures Leaves(UnitRow(50), 6, 3, 50, 75, 114, 126, 167, 0)
  {
    hide InverseRow, UnitRow;
    UnitRows0(); UnitRows15(); UnitRows30(); UnitRows45(); UnitRows60(); UnitRows75();
    InverseRows0(); InverseRows9(); InverseRows18(); InverseRows27(); InverseRows36(); InverseRows45();
    InverseRows54(); InverseRows63(); InverseRows72(); InverseRows81();
  }

  lemma LeavesFrom51()
    ensures Leaves(UnitRow(51), 6, 15, 44, 86, 113, 124, 171, 0)
    ensures Leaves(UnitRow(52), 6, 14, 29, 85, 114, 122, 149, 0)
    ensures Leaves(UnitRow(53), 6, 22, 45, 63, 90, 143, 172, 0)
  {
    hide InverseRow, UnitRow;
    UnitRows0(); UnitRows15(); UnitRows30(); UnitRows45(); UnitRows60(); UnitRows75();
    InverseRows0(); InverseRows9(); InverseRows18(); InverseRows27(); InverseRows36(); InverseRows45();
    InverseRows54(); InverseRows63(); InverseRows72(); InverseRows81();
  }

  lemma LeavesFrom54()
    ensures Leaves(UnitRow(54), 6, 22, 34, 74, 112, 144, 152, 0)
    ensures Leaves(UnitRow(55), 7, 13, 40, 86, 107, 116, 148, 169)
    ensures Leaves(UnitRow(56), 6, 24, 39, 84, 93, 123, 158, 0)
  {
    hide InverseRow, UnitRow;
    UnitRows0(); UnitRows15(); UnitRows30(); UnitRows45(); UnitRows60(); UnitRows75();
    InverseRows0(); InverseRows9(); InverseRows18(); InverseRows27(); InverseRows36(); InverseRows45();
    InverseRows54(); InverseRows63(); InverseRows72(); InverseRows81();
  }

  lemma LeavesFrom57()
    ensures Leaves(UnitRow(57), 6, 24, 57, 68, 115, 142, 173, 0)
    ensures Leaves(UnitRow(58), 6, 28, 42, 60, 115, 131, 161, 0)
    ensures Leaves(UnitRow(59), 6, 14, 57, 87, 111, 120, 163, 0)
  {
    hide InverseRow, UnitRow;
    UnitRows0(); UnitRows15(); UnitRows30(); UnitRows45(); UnitRows60(); UnitRows75();
    InverseRows0(); InverseRows9(); InverseRows18(); InverseRows27(); InverseRows36(); InverseRows45();
    InverseRows54(); InverseRows63(); InverseRows72(); InverseRows81();
  }

  lemma LeavesFrom60()
    ensures Leaves(UnitRow(60), 7, 3, 58, 71, 113, 118, 162, 172)
    ensures Leaves(UnitRow(61), 6, 26, 46, 85, 97, 133, 152, 0)
    ensures Leaves(UnitRow(62), 5, 4, 43, 77, 108, 140, 0, 0)
  {
    hide InverseRow, UnitRow;
    UnitRows0(); UnitRows15(); UnitRows30(); UnitRows45(); UnitRows60(); UnitRows75();
    InverseRows0(); InverseRows9(); InverseRows18(); InverseRows27(); InverseRows36(); InverseRows45();
    InverseRows54(); InverseRows63(); InverseRows72(); InverseRows81();
  }

  lemma LeavesFrom63()
    ensures Leaves(UnitRow(63), 6, 9, 45, 68, 102, 135, 164, 0)
    ensures Leaves(UnitRow(64), 6, 8, 49, 58, 92, 127, 163, 0)
    ensures Leaves(UnitRow(65), 6, 13, 56, 57, 108, 119, 165, 0)
  {
    hide InverseRow, UnitRow;
    UnitRows0(); UnitRows15(); UnitRows30(); UnitRows45(); UnitRows60(); UnitRows75();
    InverseRows0(); InverseRows9(); InverseRows18(); InverseRows27(); InverseRows36(); InverseRows45();
    InverseRows54(); InverseRows63(); InverseRows72(); InverseRows81();
  }

  lemma LeavesFrom66()
    ensures Leaves(UnitRow(66), 6, 16, 54, 61, 115, 124, 153, 0)
    ensures Leaves(UnitRow(67), 6, 2, 53, 69, 100, 139, 169, 0)
    ensures Leaves(UnitRow(68), 6, 0, 35, 81, 107, 126, 173, 0)
  {
    hide InverseRow, UnitRow;
    UnitRows0(); UnitRows15(); UnitRows30(); UnitRows45(); UnitRows60(); UnitRows75();
    InverseRows0(); InverseRows9(); InverseRows18(); InverseRows27(); InverseRows36(); InverseRows45();
    InverseRows54(); InverseRows63(); InverseRows72(); InverseRows81();
  }

  lemma LeavesFrom69()
    ensures Leaves(UnitRow(69), 5, 4, 52, 80, 104, 139, 0, 0)
    ensures Leaves(UnitRow(70), 6, 28, 52, 66, 98, 141, 172, 0)
    ensures Leaves(UnitRow(71), 6, 17, 48, 73, 96, 114, 166, 0)
  {
    hide InverseRow, UnitRow;
    UnitRows0(); UnitRows15(); UnitRows30(); UnitRows45(); UnitRows60(); UnitRows75();
    InverseRows0(); InverseRows9(); InverseRows18(); InverseRows27(); InverseRows36(); InverseRows45();
    InverseRows54(); InverseRows63(); InverseRows72(); InverseRows81();
  }

  lemma LeavesFrom72()
    ensures Leaves(UnitRow(72), 6, 1, 56, 62, 102, 137, 156, 0)
    ensures Leaves(UnitRow(73), 6, 25, 37, 78, 111, 134, 170, 0)
    ensures Leaves(UnitRow(74), 6, 10, 51, 65, 87, 118, 147, 0)
  {
    hide InverseRow, UnitRow;
    UnitRows0(); UnitRows15(); UnitRows30(); UnitRows45(); UnitRows60(); UnitRows75();
    InverseRows0(); InverseRows9(); InverseRows18(); InverseRows27(); InverseRows36(); InverseRows45();
    InverseRows54(); InverseRows63(); InverseRows72(); InverseRows81();
  }

  lemma LeavesFrom75()
    ensures Leaves(UnitRow(75), 6, 19, 39, 67, 116, 140, 159, 0)
    ensures Leaves(UnitRow(76), 6, 10, 47, 80, 88, 145, 168, 0)
    ensures Leaves(UnitRow(77), 6, 28, 46, 79, 91, 145, 171, 0)
  {
    hide InverseRow, UnitRow;
    UnitRows0(); UnitRows15(); UnitRows30(); UnitRows45(); UnitRows60(); UnitRows75();
    InverseRows0(); InverseRows9(); InverseRows18(); InverseRows27(); InverseRows36(); InverseRows45();
    InverseRows54(); InverseRows63(); InverseRows72(); InverseRows81();
  }

  lemma LeavesFrom78()
    ensures Leaves(UnitRow(78), 6, 5, 31, 86, 103, 144, 168, 0)
    ensures Leaves(UnitRow(79), 6, 26, 33, 73, 105, 130, 164, 0)
    ensures Leaves(UnitRow(80), 5, 11, 55, 83, 87, 138, 0, 0)
  {
    hide InverseRow, UnitRow;
    UnitRows0(); UnitRows15(); UnitRows30(); UnitRows45(); UnitRows60(); UnitRows75();
    InverseRows0(); InverseRows9(); InverseRows18(); InverseRows27(); InverseRows36(); InverseRows45();
    InverseRows54(); InverseRows63(); InverseRows72(); InverseRows81();
  }

  lemma LeavesFrom81()
    ensures Leaves(UnitRow(81), 6, 12, 55, 61, 110, 145, 170, 0)
    ensures Leaves(UnitRow(82), 6, 25, 36, 79, 104, 143, 150, 0)
    ensures Leaves(UnitRow(83), 6, 16, 30, 81, 112, 120, 160, 0)
  {
    hide InverseRow, UnitRow;
    UnitRows0(); UnitRows15(); UnitRows30(); UnitRows45(); UnitRows60(); UnitRows75();
    InverseRows0(); InverseRows9(); InverseRows18(); InverseRows27(); InverseRows36(); InverseRows45();
    InverseRows54(); InverseRows63(); InverseRows72(); InverseRows81();
  }

  lemma LeavesFrom84()
    ensures Leaves(UnitRow(84), 5, 27, 48, 58, 93, 136, 0, 0)
    ensures Leaves(UnitRow(85), 6, 6, 54, 82, 100, 130, 167, 0)
    ensures Leaves(UnitRow(86), 6, 23, 49, 77, 105, 142, 148, 0)
  {
    hide InverseRow, UnitRow;
    UnitRows0(); UnitRows15(); UnitRows30(); UnitRows45(); UnitRows60(); UnitRows75();
    InverseRows0(); InverseRows9(); InverseRows18(); InverseRows27(); InverseRows36(); InverseRows45();
    InverseRows54(); InverseRows63(); InverseRows72(); InverseRows81();
  }

  lemma NodeCancels(c: nat)
    requires c < 87
    ensures var node := Nm(c); Cancels(node.valid, node.n0, node.n1, node.n2, node.n3, node.n4, node.n5, node.n6)
  {
    hide Cancels;
    CancelsFrom0(); CancelsFrom3(); CancelsFrom6(); CancelsFrom9(); CancelsFrom12(); CancelsFrom15(); CancelsFrom18();
    CancelsFrom21(); CancelsFrom24(); CancelsFrom27(); CancelsFrom30(); CancelsFrom33(); CancelsFrom36();
    CancelsFrom39(); CancelsFrom42(); CancelsFrom45(); CancelsFrom48(); CancelsFrom51(); CancelsFrom54();
    CancelsFrom57(); CancelsFrom60(); CancelsFrom63(); CancelsFrom66(); CancelsFrom69(); CancelsFrom72();
    CancelsFrom75(); CancelsFrom78(); CancelsFrom81(); CancelsFrom84();
  }

  lemma NodeLeaves(c: nat)
    requires c < 87
    ensures var node := Nm(c);
            Leaves(UnitRow(c), node.valid, node.n0, node.n1, node.n2, node.n3, node.n4, node.n5, node.n6)
  {
    hide Leaves, UnitRow;
    LeavesFrom0(); LeavesFrom3(); LeavesFrom6(); LeavesFrom9(); LeavesFrom12(); LeavesFrom15(); LeavesFrom18();
    LeavesFrom21(); LeavesFrom24(); LeavesFrom27(); LeavesFrom30(); LeavesFrom33(); LeavesFrom36(); LeavesFrom39();
    LeavesFrom42(); LeavesFrom45(); LeavesFrom48(); LeavesFrom51(); LeavesFrom54(); LeavesFrom57(); LeavesFrom60();
    LeavesFrom63(); LeavesFrom66(); LeavesFrom69(); LeavesFrom72(); LeavesFrom75(); LeavesFrom78(); LeavesFrom81();
    LeavesFrom84();
  }

  // Check c makes the rows of the generator cancel.
  lemma GeneratorCancels(c: nat)
    requires c < 87
    ensures NodeAdds(ZERO, GeneratorRow, Nm(c))
  {
    hide XorIs, GeneratorRow, Nm;
    NodeCancels(c);
  }

  // Check c leaves exactly row c of the identity of the rows of the certificate.
  lemma CertificateLeaves(c: nat)
    requires c < 87
    ensures NodeAdds(UnitRow(c), CertificateRow, Nm(c))
  {
    hide XorIs, UnitRow, CertificateRow, Nm;
    NodeLeaves(c);
  }
}

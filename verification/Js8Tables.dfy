/** The constant tables of JS8.cpp: the parity matrix of the encoder and the check tables Nm
    and Mn of the decoder, and the proof that they agree.

    An 88-bit word holds one matrix row, most significant bit first: column j of a row is bit
    87 - j of its word. A row has 87 columns, so the last bit of a word is unused. */
module Js8Tables {
  import opened Gf2

  type CheckIndex = c: nat | c < 87

  // The position of a bit in a codeword.
  type BitIndex = n: nat | n < 174

  type Arity = v: nat | 5 <= v <= 7 witness 5

  // One row of Nm: a check adds up the first `valid` of the seven listed codeword bits.
  datatype CheckNode = CheckNode(valid: Arity, n0: BitIndex, n1: BitIndex, n2: BitIndex, n3: BitIndex,
                                 n4: BitIndex, n5: BitIndex, n6: BitIndex)
  {
    function Neighbor(j: nat): BitIndex {
      match j
      case 0 => n0 case 1 => n1 case 2 => n2 case 3 => n3
      case 4 => n4 case 5 => n5 case _ => n6
    }
  }

  // The rows of the parity matrix, the digits being those of the program.
  const PARITY_0 := Word(0x23bba830e23b6b6f50982e)
  const PARITY_1 := Word(0x1f8e55da218c5df3309052)
  const PARITY_2 := Word(0xca7b3217cd92bd59a5ae20)
  const PARITY_3 := Word(0x56f78313537d0f4382964e)
  const PARITY_4 := Word(0x6be396b5e2e819e373340c)
  const PARITY_5 := Word(0x293548a138858328af4210)
  const PARITY_6 := Word(0xcb6c6afcdc28bb3f7c6e86)
  const PARITY_7 := Word(0x3f2a86f5c5bd225c961150)
  const PARITY_8 := Word(0x849dd2d63673481860f62c)
  const PARITY_9 := Word(0x56cdaec6e7ae14b43feeee)
  const PARITY_10 := Word(0x04ef5cfa3766ba778f45a4)
  const PARITY_11 := Word(0xc525ae4bd4f627320a3974)
  const PARITY_12 := Word(0x41fd9520b2e4abeb2f989c)
  const PARITY_13 := Word(0x7fb36c24085a34d8c1dbc4)
  const PARITY_14 := Word(0x40fc3e44bb7d2bb2756e44)
  const PARITY_15 := Word(0xd38ab0a1d2e52a8ec3bc76)
  const PARITY_16 := Word(0x3d0f929ef3949bd84d4734)
  const PARITY_17 := Word(0x45d3814f504064f80549ae)
  const PARITY_18 := Word(0xf14dbf263825d0bd04b05e)
  const PARITY_19 := Word(0xdb714f8f64e8ac7af1a76e)
  const PARITY_20 := Word(0x8d0274de71e7c1a8055eb0)
  const PARITY_21 := Word(0x51f81573dd4049b082de14)
  const PARITY_22 := Word(0xd8f937f31822e57c562370)
  const PARITY_23 := Word(0xb6537f417e61d1a7085336)
  const PARITY_24 := Word(0xecbd7c73b9cd34c3720c8a)
  const PARITY_25 := Word(0x3d188ea477f6fa41317a4e)
  const PARITY_26 := Word(0x1ac4672b549cd6dba79bcc)
  const PARITY_27 := Word(0xa377253773ea678367c3f6)
  const PARITY_28 := Word(0x0dbd816fba1543f721dc72)
  const PARITY_29 := Word(0xca4186dd44c3121565cf5c)
  const PARITY_30 := Word(0x29c29dba9c545e267762fe)
  const PARITY_31 := Word(0x1616d78018d0b4745ca0f2)
  const PARITY_32 := Word(0xfe37802941d66dde02b99c)
  const PARITY_33 := Word(0xa9fa8e50bcb032c85e3304)
  const PARITY_34 := Word(0x83f640f1a48a8ebc0443ea)
  const PARITY_35 := Word(0x3776af54ccfbae916afde6)
  const PARITY_36 := Word(0xa8fc906976c35669e79ce0)
  const PARITY_37 := Word(0xf08a91fb2e1f78290619a8)
  const PARITY_38 := Word(0xcc9da55fe046d0cb3a770c)
  const PARITY_39 := Word(0xd36d662a69ae24b74dcbd8)
  const PARITY_40 := Word(0x40907b01280f03c0323946)
  const PARITY_41 := Word(0xd037db825175d851f3af00)
  const PARITY_42 := Word(0x1bf1490607c54032660ede)
  const PARITY_43 := Word(0x0af7723161ec223080be86)
  const PARITY_44 := Word(0xeca9afa0f6b01d92305edc)
  const PARITY_45 := Word(0x7a8dec79a51e8ac5388022)
  const PARITY_46 := Word(0x9059dfa2bb20ef7ef73ad4)
  const PARITY_47 := Word(0x6abb212d9739dfc02580f2)
  const PARITY_48 := Word(0xf6ad4824b87c80ebfce466)
  const PARITY_49 := Word(0xd747bfc5fd65ef70fbd9bc)
  const PARITY_50 := Word(0x612f63acc025b6ab476f7c)
  const PARITY_51 := Word(0x05209a0abb530b9e7e34b0)
  const PARITY_52 := Word(0x45b7ab6242b77474d9f11a)
  const PARITY_53 := Word(0x6c280d2a0523d9c4bc5946)
  const PARITY_54 := Word(0xf1627701a2d692fd9449e6)
  const PARITY_55 := Word(0x8d9071b7e7a6a2eed6965e)
  const PARITY_56 := Word(0xbf4f56e073271f6ab4bf80)
  const PARITY_57 := Word(0xc0fc3ec4fb7d2bb2756644)
  const PARITY_58 := Word(0x57da6d13cb96a7689b2790)
  const PARITY_59 := Word(0xa9fa2eefa6f8796a355772)
  const PARITY_60 := Word(0x164cc861bdd803c547f2ac)
  const PARITY_61 := Word(0xcc6de59755420925f90ed2)
  const PARITY_62 := Word(0xa0c0033a52ab6299802fd2)
  const PARITY_63 := Word(0xb274db8abd3c6f396ea356)
  const PARITY_64 := Word(0x97d4169cb33e7435718d90)
  const PARITY_65 := Word(0x81cfc6f18c35b1e1f17114)
  const PARITY_66 := Word(0x481a2a0df8a23583f82d6c)
  const PARITY_67 := Word(0x081c29a10d468ccdbcecb6)
  const PARITY_68 := Word(0x2c4142bf42b01e71076acc)
  const PARITY_69 := Word(0xa6573f3dc8b16c9d19f746)
  const PARITY_70 := Word(0xc87af9a5d5206abca532a8)
  const PARITY_71 := Word(0x012dee2198eba82b19a1da)
  const PARITY_72 := Word(0xb1ca4ea2e3d173bad4379c)
  const PARITY_73 := Word(0xb33ec97be83ce413f9acc8)
  const PARITY_74 := Word(0x5b0f7742bca86b8012609a)
  const PARITY_75 := Word(0x37d8e0af9258b9e8c5f9b2)
  const PARITY_76 := Word(0x35ad3fb0faeb5f1b0c30dc)
  const PARITY_77 := Word(0x6114e08483043fd3f38a8a)
  const PARITY_78 := Word(0xcd921fdf59e882683763f6)
  const PARITY_79 := Word(0x95e45ecd0135aca9d6e6ae)
  const PARITY_80 := Word(0x2e547dd7a05f6597aac516)
  const PARITY_81 := Word(0x14cd0f642fc0c5fe3a65ca)
  const PARITY_82 := Word(0x3a0a1dfd7eee29c2e827e0)
  const PARITY_83 := Word(0xc8b5dffc335095dcdcaf2a)
  const PARITY_84 := Word(0x3dd01a59d86310743ec752)
  const PARITY_85 := Word(0x8abdb889efbe39a510a118)
  const PARITY_86 := Word(0x3f231f212055371cf3e2a2)

  function ParityRow(i: nat): Word {
    if i < 6 then ParityRow0(i) else
    if i < 12 then ParityRow6(i) else
    if i < 18 then ParityRow12(i) else
    if i < 24 then ParityRow18(i) else
    if i < 30 then ParityRow24(i) else
    if i < 36 then ParityRow30(i) else
    if i < 42 then ParityRow36(i) else
    if i < 48 then ParityRow42(i) else
    if i < 54 then ParityRow48(i) else
    if i < 60 then ParityRow54(i) else
    if i < 66 then ParityRow60(i) else
    if i < 72 then ParityRow66(i) else
    if i < 78 then ParityRow72(i) else
    if i < 84 then ParityRow78(i) else
    ParityRow84(i)
  }

  function ParityRow0(i: nat): Word {
    match i
    case 0 => PARITY_0 case 1 => PARITY_1 case 2 => PARITY_2 case 3 => PARITY_3 case 4 => PARITY_4 case _ => PARITY_5
  }

  function ParityRow6(i: nat): Word {
    match i
    case 6 => PARITY_6 case 7 => PARITY_7 case 8 => PARITY_8 case 9 => PARITY_9 case 10 => PARITY_10 case _ => PARITY_11
  }

  function ParityRow12(i: nat): Word {
    match i
    case 12 => PARITY_12 case 13 => PARITY_13 case 14 => PARITY_14 case 15 => PARITY_15 case 16 => PARITY_16
    case _ => PARITY_17
  }

  function ParityRow18(i: nat): Word {
    match i
    case 18 => PARITY_18 case 19 => PARITY_19 case 20 => PARITY_20 case 21 => PARITY_21 case 22 => PARITY_22
    case _ => PARITY_23
  }

  function ParityRow24(i: nat): Word {
    match i
    case 24 => PARITY_24 case 25 => PARITY_25 case 26 => PARITY_26 case 27 => PARITY_27 case 28 => PARITY_28
    case _ => PARITY_29
  }

  function ParityRow30(i: nat): Word {
    match i
    case 30 => PARITY_30 case 31 => PARITY_31 case 32 => PARITY_32 case 33 => PARITY_33 case 34 => PARITY_34
    case _ => PARITY_35
  }

  function ParityRow36(i: nat): Word {
    match i
    case 36 => PARITY_36 case 37 => PARITY_37 case 38 => PARITY_38 case 39 => PARITY_39 case 40 => PARITY_40
    case _ => PARITY_41
  }

  function ParityRow42(i: nat): Word {
    match i
    case 42 => PARITY_42 case 43 => PARITY_43 case 44 => PARITY_44 case 45 => PARITY_45 case 46 => PARITY_46
    case _ => PARITY_47
  }

  function ParityRow48(i: nat): Word {
    match i
    case 48 => PARITY_48 case 49 => PARITY_49 case 50 => PARITY_50 case 51 => PARITY_51 case 52 => PARITY_52
    case _ => PARITY_53
  }

  function ParityRow54(i: nat): Word {
    match i
    case 54 => PARITY_54 case 55 => PARITY_55 case 56 => PARITY_56 case 57 => PARITY_57 case 58 => PARITY_58
    case _ => PARITY_59
  }

  function ParityRow60(i: nat): Word {
    match i
    case 60 => PARITY_60 case 61 => PARITY_61 case 62 => PARITY_62 case 63 => PARITY_63 case 64 => PARITY_64
    case _ => PARITY_65
  }

  function ParityRow66(i: nat): Word {
    match i
    case 66 => PARITY_66 case 67 => PARITY_67 case 68 => PARITY_68 case 69 => PARITY_69 case 70 => PARITY_70
    case _ => PARITY_71
  }

  function ParityRow72(i: nat): Word {
    match i
    case 72 => PARITY_72 case 73 => PARITY_73 case 74 => PARITY_74 case 75 => PARITY_75 case 76 => PARITY_76
    case _ => PARITY_77
  }

  function ParityRow78(i: nat): Word {
    match i
    case 78 => PARITY_78 case 79 => PARITY_79 case 80 => PARITY_80 case 81 => PARITY_81 case 82 => PARITY_82
    case _ => PARITY_83
  }

  function ParityRow84(i: nat): Word {
    match i
    case 84 => PARITY_84 case 85 => PARITY_85 case _ => PARITY_86
  }

  // The bits that check c adds up.
  function Nm(c: nat): CheckNode {
    match c
    case 0 => CheckNode(6, 0, 29, 59, 88, 117, 146, 0)
    case 1 => CheckNode(6, 1, 30, 60, 89, 118, 146, 0)
    case 2 => CheckNode(6, 2, 31, 61, 90, 119, 147, 0)
    case 3 => CheckNode(6, 3, 32, 62, 91, 120, 148, 0)
    case 4 => CheckNode(6, 1, 33, 63, 92, 121, 149, 0)
    case 5 => CheckNode(6, 4, 32, 64, 93, 122, 147, 0)
    case 6 => CheckNode(6, 5, 33, 65, 94, 123, 150, 0)
    case 7 => CheckNode(6, 6, 34, 66, 95, 119, 151, 0)
    case 8 => CheckNode(6, 7, 35, 67, 96, 124, 152, 0)
    case 9 => CheckNode(6, 8, 36, 68, 97, 125, 151, 0)
    case 10 => CheckNode(6, 9, 37, 69, 98, 126, 153, 0)
    case 11 => CheckNode(6, 10, 38, 70, 99, 125, 154, 0)
    case 12 => CheckNode(6, 11, 39, 60, 100, 127, 144, 0)
    case 13 => CheckNode(6, 9, 32, 59, 94, 127, 155, 0)
    case 14 => CheckNode(6, 12, 40, 71, 96, 125, 156, 0)
    case 15 => CheckNode(6, 12, 41, 72, 89, 128, 155, 0)
    case 16 => CheckNode(6, 13, 38, 73, 98, 129, 157, 0)
    case 17 => CheckNode(6, 14, 42, 74, 101, 130, 158, 0)
    case 18 => CheckNode(6, 15, 42, 70, 102, 117, 159, 0)
    case 19 => CheckNode(6, 16, 43, 75, 97, 129, 155, 0)
    case 20 => CheckNode(6, 17, 44, 59, 95, 131, 160, 0)
    case 21 => CheckNode(6, 18, 45, 72, 82, 132, 161, 0)
    case 22 => CheckNode(6, 11, 37, 76, 101, 133, 162, 0)
    case 23 => CheckNode(6, 18, 46, 77, 103, 134, 146, 0)
    case 24 => CheckNode(6, 0, 31, 76, 104, 135, 163, 0)
    case 25 => CheckNode(6, 19, 47, 72, 105, 122, 162, 0)
    case 26 => CheckNode(6, 20, 40, 78, 106, 136, 164, 0)
    case 27 => CheckNode(6, 21, 41, 65, 107, 137, 151, 0)
    case 28 => CheckNode(6, 17, 41, 79, 108, 138, 153, 0)
    case 29 => CheckNode(6, 22, 48, 80, 109, 134, 165, 0)
    case 30 => CheckNode(6, 15, 49, 81, 90, 128, 157, 0)
    case 31 => CheckNode(6, 2, 47, 62, 106, 123, 166, 0)
    case 32 => CheckNode(6, 5, 50, 66, 110, 133, 154, 0)
    case 33 => CheckNode(6, 23, 34, 76, 99, 121, 161, 0)
    case 34 => CheckNode(6, 19, 44, 75, 111, 139, 156, 0)
    case 35 => CheckNode(6, 20, 35, 63, 91, 129, 158, 0)
    case 36 => CheckNode(6, 7, 51, 82, 110, 117, 165, 0)
    case 37 => CheckNode(6, 20, 52, 83, 112, 137, 167, 0)
    case 38 => CheckNode(6, 24, 50, 78, 88, 121, 157, 0)
    case 39 => CheckNode(7, 21, 43, 74, 106, 132, 154, 171)
    case 40 => CheckNode(6, 8, 53, 83, 89, 140, 168, 0)
    case 41 => CheckNode(6, 21, 53, 84, 109, 135, 160, 0)
    case 42 => CheckNode(6, 7, 36, 64, 101, 128, 169, 0)
    case 43 => CheckNode(6, 18, 38, 84, 113, 138, 149, 0)
    case 44 => CheckNode(6, 25, 54, 70, 92, 141, 166, 0)
    case 45 => CheckNode(7, 26, 55, 64, 95, 132, 159, 173)
    case 46 => CheckNode(6, 27, 30, 85, 99, 116, 170, 0)
    case 47 => CheckNode(6, 27, 51, 69, 103, 131, 143, 0)
    case 48 => CheckNode(6, 23, 56, 67, 94, 136, 141, 0)
    case 49 => CheckNode(6, 6, 29, 71, 109, 142, 150, 0)
    case 50 => CheckNode(6, 3, 50, 75, 114, 126, 167, 0)
    case 51 => CheckNode(6, 15, 44, 86, 113, 124, 171, 0)
    case 52 => CheckNode(6, 14, 29, 85, 114, 122, 149, 0)
    case 53 => CheckNode(6, 22, 45, 63, 90, 143, 172, 0)
    case 54 => CheckNode(6, 22, 34, 74, 112, 144, 152, 0)
    case 55 => CheckNode(7, 13, 40, 86, 107, 116, 148, 169)
    case 56 => CheckNode(6, 24, 39, 84, 93, 123, 158, 0)
    case 57 => CheckNode(6, 24, 57, 68, 115, 142, 173, 0)
    case 58 => CheckNode(6, 28, 42, 60, 115, 131, 161, 0)
    case 59 => CheckNode(6, 14, 57, 87, 111, 120, 163, 0)
    case 60 => CheckNode(7, 3, 58, 71, 113, 118, 162, 172)
    case 61 => CheckNode(6, 26, 46, 85, 97, 133, 152, 0)
    case 62 => CheckNode(5, 4, 43, 77, 108, 140, 0, 0)
    case 63 => CheckNode(6, 9, 45, 68, 102, 135, 164, 0)
    case 64 => CheckNode(6, 8, 49, 58, 92, 127, 163, 0)
    case 65 => CheckNode(6, 13, 56, 57, 108, 119, 165, 0)
    case 66 => CheckNode(6, 16, 54, 61, 115, 124, 153, 0)
    case 67 => CheckNode(6, 2, 53, 69, 100, 139, 169, 0)
    case 68 => CheckNode(6, 0, 35, 81, 107, 126, 173, 0)
    case 69 => CheckNode(5, 4, 52, 80, 104, 139, 0, 0)
    case 70 => CheckNode(6, 28, 52, 66, 98, 141, 172, 0)
    case 71 => CheckNode(6, 17, 48, 73, 96, 114, 166, 0)
    case 72 => CheckNode(6, 1, 56, 62, 102, 137, 156, 0)
    case 73 => CheckNode(6, 25, 37, 78, 111, 134, 170, 0)
    case 74 => CheckNode(6, 10, 51, 65, 87, 118, 147, 0)
    case 75 => CheckNode(6, 19, 39, 67, 116, 140, 159, 0)
    case 76 => CheckNode(6, 10, 47, 80, 88, 145, 168, 0)
    case 77 => CheckNode(6, 28, 46, 79, 91, 145, 171, 0)
    case 78 => CheckNode(6, 5, 31, 86, 103, 144, 168, 0)
    case 79 => CheckNode(6, 26, 33, 73, 105, 130, 164, 0)
    case 80 => CheckNode(5, 11, 55, 83, 87, 138, 0, 0)
    case 81 => CheckNode(6, 12, 55, 61, 110, 145, 170, 0)
    case 82 => CheckNode(6, 25, 36, 79, 104, 143, 150, 0)
    case 83 => CheckNode(6, 16, 30, 81, 112, 120, 160, 0)
    case 84 => CheckNode(5, 27, 48, 58, 93, 136, 0, 0)
    case 85 => CheckNode(6, 6, 54, 82, 100, 130, 167, 0)
    case _ => CheckNode(6, 23, 49, 77, 105, 142, 148, 0)
  }

  // The checks that codeword bit n takes part in, in blocks of six.
  function Mn(n: nat): (CheckIndex, CheckIndex, CheckIndex) {
    if n < 6 then Mn0(n) else
    if n < 12 then Mn6(n) else
    if n < 18 then Mn12(n) else
    if n < 24 then Mn18(n) else
    if n < 30 then Mn24(n) else
    if n < 36 then Mn30(n) else
    if n < 42 then Mn36(n) else
    if n < 48 then Mn42(n) else
    if n < 54 then Mn48(n) else
    if n < 60 then Mn54(n) else
    if n < 66 then Mn60(n) else
    if n < 72 then Mn66(n) else
    if n < 78 then Mn72(n) else
    if n < 84 then Mn78(n) else
    if n < 90 then Mn84(n) else
    if n < 96 then Mn90(n) else
    if n < 102 then Mn96(n) else
    if n < 108 then Mn102(n) else
    if n < 114 then Mn108(n) else
    if n < 120 then Mn114(n) else
    if n < 126 then Mn120(n) else
    if n < 132 then Mn126(n) else
    if n < 138 then Mn132(n) else
    if n < 144 then Mn138(n) else
    if n < 150 then Mn144(n) else
    if n < 156 then Mn150(n) else
    if n < 162 then Mn156(n) else
    if n < 168 then Mn162(n) else
    Mn168(n)
  }

  function Mn0(n: nat): (CheckIndex, CheckIndex, CheckIndex) {
    match n
    case 0 => (0, 24, 68) case 1 => (1, 4, 72) case 2 => (2, 31, 67)
    case 3 => (3, 50, 60) case 4 => (5, 62, 69) case _ => (6, 32, 78)
  }

  function Mn6(n: nat): (CheckIndex, CheckIndex, CheckIndex) {
    match n
    case 6 => (7, 49, 85) case 7 => (8, 36, 42) case 8 => (9, 40, 64)
    case 9 => (10, 13, 63) case 10 => (11, 74, 76) case _ => (12, 22, 80)
  }

  function Mn12(n: nat): (CheckIndex, CheckIndex, CheckIndex) {
    match n
    case 12 => (14, 15, 81) case 13 => (16, 55, 65) case 14 => (17, 52, 59)
    case 15 => (18, 30, 51) case 16 => (19, 66, 83) case _ => (20, 28, 71)
  }

  function Mn18(n: nat): (CheckIndex, CheckIndex, CheckIndex) {
    match n
    case 18 => (21, 23, 43) case 19 => (25, 34, 75) case 20 => (26, 35, 37)
    case 21 => (27, 39, 41) case 22 => (29, 53, 54) case _ => (33, 48, 86)
  }

  function Mn24(n: nat): (CheckIndex, CheckIndex, CheckIndex) {
    match n
    case 24 => (38, 56, 57) case 25 => (44, 73, 82) case 26 => (45, 61, 79)
    case 27 => (46, 47, 84) case 28 => (58, 70, 77) case _ => (0, 49, 52)
  }

  function Mn30(n: nat): (CheckIndex, CheckIndex, CheckIndex) {
    match n
    case 30 => (1, 46, 83) case 31 => (2, 24, 78) case 32 => (3, 5, 13)
    case 33 => (4, 6, 79) case 34 => (7, 33, 54) case _ => (8, 35, 68)
  }

  function Mn36(n: nat): (CheckIndex, CheckIndex, CheckIndex) {
    match n
    case 36 => (9, 42, 82) case 37 => (10, 22, 73) case 38 => (11, 16, 43)
    case 39 => (12, 56, 75) case 40 => (14, 26, 55) case _ => (15, 27, 28)
  }

  function Mn42(n: nat): (CheckIndex, CheckIndex, CheckIndex) {
    match n
    case 42 => (17, 18, 58) case 43 => (19, 39, 62) case 44 => (20, 34, 51)
    case 45 => (21, 53, 63) case 46 => (23, 61, 77) case _ => (25, 31, 76)
  }

  function Mn48(n: nat): (CheckIndex, CheckIndex, CheckIndex) {
    match n
    case 48 => (29, 71, 84) case 49 => (30, 64, 86) case 50 => (32, 38, 50)
    case 51 => (36, 47, 74) case 52 => (37, 69, 70) case _ => (40, 41, 67)
  }

  function Mn54(n: nat): (CheckIndex, CheckIndex, CheckIndex) {
    match n
    case 54 => (44, 66, 85) case 55 => (45, 80, 81) case 56 => (48, 65, 72)
    case 57 => (57, 59, 65) case 58 => (60, 64, 84) case _ => (0, 13, 20)
  }

  function Mn60(n: nat): (CheckIndex, CheckIndex, CheckIndex) {
    match n
    case 60 => (1, 12, 58) case 61 => (2, 66, 81) case 62 => (3, 31, 72)
    case 63 => (4, 35, 53) case 64 => (5, 42, 45) case _ => (6, 27, 74)
  }

  function Mn66(n: nat): (CheckIndex, CheckIndex, CheckIndex) {
    match n
    case 66 => (7, 32, 70) case 67 => (8, 48, 75) case 68 => (9, 57, 63)
    case 69 => (10, 47, 67) case 70 => (11, 18, 44) case _ => (14, 49, 60)
  }

  function Mn72(n: nat): (CheckIndex, CheckIndex, CheckIndex) {
    match n
    case 72 => (15, 21, 25) case 73 => (16, 71, 79) case 74 => (17, 39, 54)
    case 75 => (19, 34, 50) case 76 => (22, 24, 33) case _ => (23, 62, 86)
  }

  function Mn78(n: nat): (CheckIndex, CheckIndex, CheckIndex) {
    match n
    case 78 => (26, 38, 73) case 79 => (28, 77, 82) case 80 => (29, 69, 76)
    case 81 => (30, 68, 83) case 82 => (21, 36, 85) case _ => (37, 40, 80)
  }

  function Mn84(n: nat): (CheckIndex, CheckIndex, CheckIndex) {
    match n
    case 84 => (41, 43, 56) case 85 => (46, 52, 61) case 86 => (51, 55, 78)
    case 87 => (59, 74, 80) case 88 => (0, 38, 76) case _ => (1, 15, 40)
  }

  function Mn90(n: nat): (CheckIndex, CheckIndex, CheckIndex) {
    match n
    case 90 => (2, 30, 53) case 91 => (3, 35, 77) case 92 => (4, 44, 64)
    case 93 => (5, 56, 84) case 94 => (6, 13, 48) case _ => (7, 20, 45)
  }

  function Mn96(n: nat): (CheckIndex, CheckIndex, CheckIndex) {
    match n
    case 96 => (8, 14, 71) case 97 => (9, 19, 61) case 98 => (10, 16, 70)
    case 99 => (11, 33, 46) case 100 => (12, 67, 85) case _ => (17, 22, 42)
  }

  function Mn102(n: nat): (CheckIndex, CheckIndex, CheckIndex) {
    match n
    case 102 => (18, 63, 72) case 103 => (23, 47, 78) case 104 => (24, 69, 82)
    case 105 => (25, 79, 86) case 106 => (26, 31, 39) case _ => (27, 55, 68)
  }

  function Mn108(n: nat): (CheckIndex, CheckIndex, CheckIndex) {
    match n
    case 108 => (28, 62, 65) case 109 => (29, 41, 49) case 110 => (32, 36, 81)
    case 111 => (34, 59, 73) case 112 => (37, 54, 83) case _ => (43, 51, 60)
  }

  function Mn114(n: nat): (CheckIndex, CheckIndex, CheckIndex) {
    match n
    case 114 => (50, 52, 71) case 115 => (57, 58, 66) case 116 => (46, 55, 75)
    case 117 => (0, 18, 36) case 118 => (1, 60, 74) case _ => (2, 7, 65)
  }

  function Mn120(n: nat): (CheckIndex, CheckIndex, CheckIndex) {
    match n
    case 120 => (3, 59, 83) case 121 => (4, 33, 38) case 122 => (5, 25, 52)
    case 123 => (6, 31, 56) case 124 => (8, 51, 66) case _ => (9, 11, 14)
  }

  function Mn126(n: nat): (CheckIndex, CheckIndex, CheckIndex) {
    match n
    case 126 => (10, 50, 68) case 127 => (12, 13, 64) case 128 => (15, 30, 42)
    case 129 => (16, 19, 35) case 130 => (17, 79, 85) case _ => (20, 47, 58)
  }

  function Mn132(n: nat): (CheckIndex, CheckIndex, CheckIndex) {
    match n
    case 132 => (21, 39, 45) case 133 => (22, 32, 61) case 134 => (23, 29, 73)
    case 135 => (24, 41, 63) case 136 => (26, 48, 84) case _ => (27, 37, 72)
  }

  function Mn138(n: nat): (CheckIndex, CheckIndex, CheckIndex) {
    match n
    case 138 => (28, 43, 80) case 139 => (34, 67, 69) case 140 => (40, 62, 75)
    case 141 => (44, 48, 70) case 142 => (49, 57, 86) case _ => (47, 53, 82)
  }

  function Mn144(n: nat): (CheckIndex, CheckIndex, CheckIndex) {
    match n
    case 144 => (12, 54, 78) case 145 => (76, 77, 81) case 146 => (0, 1, 23)
    case 147 => (2, 5, 74) case 148 => (3, 55, 86) case _ => (4, 43, 52)
  }

  function Mn150(n: nat): (CheckIndex, CheckIndex, CheckIndex) {
    match n
    case 150 => (6, 49, 82) case 151 => (7, 9, 27) case 152 => (8, 54, 61)
    case 153 => (10, 28, 66) case 154 => (11, 32, 39) case _ => (13, 15, 19)
  }

  function Mn156(n: nat): (CheckIndex, CheckIndex, CheckIndex) {
    match n
    case 156 => (14, 34, 72) case 157 => (16, 30, 38) case 158 => (17, 35, 56)
    case 159 => (18, 45, 75) case 160 => (20, 41, 83) case _ => (21, 33, 58)
  }

  function Mn162(n: nat): (CheckIndex, CheckIndex, CheckIndex) {
    match n
    case 162 => (22, 25, 60) case 163 => (24, 59, 64) case 164 => (26, 63, 79)
    case 165 => (29, 36, 65) case 166 => (31, 44, 71) case _ => (37, 50, 85)
  }

  function Mn168(n: nat): (CheckIndex, CheckIndex, CheckIndex) {
    match n
    case 168 => (40, 76, 78) case 169 => (42, 55, 67) case 170 => (46, 73, 81)
    case 171 => (39, 51, 77) case 172 => (53, 60, 70) case _ => (45, 57, 68)
  }

  // Check c is one of three, once.
  predicate ListedOnce(checks: (CheckIndex, CheckIndex, CheckIndex), c: nat) {
    || (checks.0 == c && checks.1 != c && checks.2 != c)
    || (checks.0 != c && checks.1 == c && checks.2 != c)
    || (checks.0 != c && checks.1 != c && checks.2 == c)
  }

  // Row k of the identity.
  function UnitRow(k: nat): Word
    requires k < 87
  {
    Word(UnitWord(k))
  }

  // Row n of the systematic generator: the parity rows, then the identity.
  function GeneratorRow(n: BitIndex): Word {
    if n < 87 then ParityRow(n) else UnitRow(n - 87)
  }
}

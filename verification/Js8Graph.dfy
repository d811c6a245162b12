/** The tables Nm and Mn list the same edges: the checks that Mn gives for a bit are those that
    list the bit, each once. The decoder relies on it when it takes back a check's own message. */
module Js8Graph {
  import opened Js8Tables

  predicate Edge(n: nat, c: nat) {
    ListedOnce(Mn(n), c)
  }

  // The first `valid` of seven bits are each listed with check c.
  predicate NodeListed(c: nat, valid: Arity, n0: BitIndex, n1: BitIndex, n2: BitIndex, n3: BitIndex,
                       n4: BitIndex, n5: BitIndex, n6: BitIndex)
  {
    && Edge(n0, c) && Edge(n1, c) && Edge(n2, c) && Edge(n3, c) && Edge(n4, c)
    && (valid > 5 ==> Edge(n5, c)) && (valid > 6 ==> Edge(n6, c))
  }

  lemma ListedFrom0()
    ensures NodeListed(0, 6, 0, 29, 59, 88, 117, 146, 0)
    ensures NodeListed(1, 6, 1, 30, 60, 89, 118, 146, 0)
    ensures NodeListed(2, 6, 2, 31, 61, 90, 119, 147, 0)
  {
  }

  lemma ListedFrom3()
    ensures NodeListed(3, 6, 3, 32, 62, 91, 120, 148, 0)
    ensures NodeListed(4, 6, 1, 33, 63, 92, 121, 149, 0)
    ensures NodeListed(5, 6, 4, 32, 64, 93, 122, 147, 0)
  {
  }

  lemma ListedFrom6()
    ensures NodeListed(6, 6, 5, 33, 65, 94, 123, 150, 0)
    ensures NodeListed(7, 6, 6, 34, 66, 95, 119, 151, 0)
    ensures NodeListed(8, 6, 7, 35, 67, 96, 124, 152, 0)
  {
  }

  lemma ListedFrom9()
    ensures NodeListed(9, 6, 8, 36, 68, 97, 125, 151, 0)
    ensures NodeListed(10, 6, 9, 37, 69, 98, 126, 153, 0)
    ensures NodeListed(11, 6, 10, 38, 70, 99, 125, 154, 0)
  {
  }

  lemma ListedFrom12()
    ensures NodeListed(12, 6, 11, 39, 60, 100, 127, 144, 0)
    ensures NodeListed(13, 6, 9, 32, 59, 94, 127, 155, 0)
    ensures NodeListed(14, 6, 12, 40, 71, 96, 125, 156, 0)
  {
  }

  lemma ListedFrom15()
    ensures NodeListed(15, 6, 12, 41, 72, 89, 128, 155, 0)
    ensures NodeListed(16, 6, 13, 38, 73, 98, 129, 157, 0)
    ensures NodeListed(17, 6, 14, 42, 74, 101, 130, 158, 0)
  {
  }

  lemma ListedFrom18()
    ensures NodeListed(18, 6, 15, 42, 70, 102, 117, 159, 0)
    ensures NodeListed(19, 6, 16, 43, 75, 97, 129, 155, 0)
    ensures NodeListed(20, 6, 17, 44, 59, 95, 131, 160, 0)
  {
  }

  lemma ListedFrom21()
    ensures NodeListed(21, 6, 18, 45, 72, 82, 132, 161, 0)
    ensures NodeListed(22, 6, 11, 37, 76, 101, 133, 162, 0)
    ensures NodeListed(23, 6, 18, 46, 77, 103, 134, 146, 0)
  {
  }

  lemma ListedFrom24()
    ensures NodeListed(24, 6, 0, 31, 76, 104, 135, 163, 0)
    ensures NodeListed(25, 6, 19, 47, 72, 105, 122, 162, 0)
    ensures NodeListed(26, 6, 20, 40, 78, 106, 136, 164, 0)
  {
  }

  lemma ListedFrom27()
    ensures NodeListed(27, 6, 21, 41, 65, 107, 137, 151, 0)
    ensures NodeListed(28, 6, 17, 41, 79, 108, 138, 153, 0)
    ensures NodeListed(29, 6, 22, 48, 80, 109, 134, 165, 0)
  {
  }

  lemma ListedFrom30()
    ensures NodeListed(30, 6, 15, 49, 81, 90, 128, 157, 0)
    ensures NodeListed(31, 6, 2, 47, 62, 106, 123, 166, 0)
    ensures NodeListed(32, 6, 5, 50, 66, 110, 133, 154, 0)
  {
  }

  lemma ListedFrom33()
    ensures NodeListed(33, 6, 23, 34, 76, 99, 121, 161, 0)
    ensures NodeListed(34, 6, 19, 44, 75, 111, 139, 156, 0)
    ensures NodeListed(35, 6, 20, 35, 63, 91, 129, 158, 0)
  {
  }

  lemma ListedFrom36()
    ensures NodeListed(36, 6, 7, 51, 82, 110, 117, 165, 0)
    ensures NodeListed(37, 6, 20, 52, 83, 112, 137, 167, 0)
    ensures NodeListed(38, 6, 24, 50, 78, 88, 121, 157, 0)
  {
  }

  lemma ListedFrom39()
    ensures NodeListed(39, 7, 21, 43, 74, 106, 132, 154, 171)
    ensures NodeListed(40, 6, 8, 53, 83, 89, 140, 168, 0)
    ensures NodeListed(41, 6, 21, 53, 84, 109, 135, 160, 0)
  {
  }

  lemma ListedFrom42()
    ensures NodeListed(42, 6, 7, 36, 64, 101, 128, 169, 0)
    ensures NodeListed(43, 6, 18, 38, 84, 113, 138, 149, 0)
    ensures NodeListed(44, 6, 25, 54, 70, 92, 141, 166, 0)
  {
  }

  lemma ListedFrom45()
    ensures NodeListed(45, 7, 26, 55, 64, 95, 132, 159, 173)
    ensures NodeListed(46, 6, 27, 30, 85, 99, 116, 170, 0)
    ensures NodeListed(47, 6, 27, 51, 69, 103, 131, 143, 0)
  {
  }

  lemma ListedFrom48()
    ensures NodeListed(48, 6, 23, 56, 67, 94, 136, 141, 0)
    ensures NodeListed(49, 6, 6, 29, 71, 109, 142, 150, 0)
    ensures NodeListed(50, 6, 3, 50, 75, 114, 126, 167, 0)
  {
  }

  lemma ListedFrom51()
    ensures NodeListed(51, 6, 15, 44, 86, 113, 124, 171, 0)
    ensures NodeListed(52, 6, 14, 29, 85, 114, 122, 149, 0)
    ensures NodeListed(53, 6, 22, 45, 63, 90, 143, 172, 0)
  {
  }

  lemma ListedFrom54()
    ensures NodeListed(54, 6, 22, 34, 74, 112, 144, 152, 0)
    ensures NodeListed(55, 7, 13, 40, 86, 107, 116, 148, 169)
    ensures NodeListed(56, 6, 24, 39, 84, 93, 123, 158, 0)
  {
  }

  lemma ListedFrom57()
    ensures NodeListed(57, 6, 24, 57, 68, 115, 142, 173, 0)
    ensures NodeListed(58, 6, 28, 42, 60, 115, 131, 161, 0)
    ensures NodeListed(59, 6, 14, 57, 87, 111, 120, 163, 0)
  {
  }

  lemma ListedFrom60()
    ensures NodeListed(60, 7, 3, 58, 71, 113, 118, 162, 172)
    ensures NodeListed(61, 6, 26, 46, 85, 97, 133, 152, 0)
    ensures NodeListed(62, 5, 4, 43, 77, 108, 140, 0, 0)
  {
  }

  lemma ListedFrom63()
    ensures NodeListed(63, 6, 9, 45, 68, 102, 135, 164, 0)
    ensures NodeListed(64, 6, 8, 49, 58, 92, 127, 163, 0)
    ensures NodeListed(65, 6, 13, 56, 57, 108, 119, 165, 0)
  {
  }

  lemma ListedFrom66()
    ensures NodeListed(66, 6, 16, 54, 61, 115, 124, 153, 0)
    ensures NodeListed(67, 6, 2, 53, 69, 100, 139, 169, 0)
    ensures NodeListed(68, 6, 0, 35, 81, 107, 126, 173, 0)
  {
  }

  lemma ListedFrom69()
    ensures NodeListed(69, 5, 4, 52, 80, 104, 139, 0, 0)
    ensures NodeListed(70, 6, 28, 52, 66, 98, 141, 172, 0)
    ensures NodeListed(71, 6, 17, 48, 73, 96, 114, 166, 0)
  {
  }

  lemma ListedFrom72()
    ensures NodeListed(72, 6, 1, 56, 62, 102, 137, 156, 0)
    ensures NodeListed(73, 6, 25, 37, 78, 111, 134, 170, 0)
    ensures NodeListed(74, 6, 10, 51, 65, 87, 118, 147, 0)
  {
  }

  lemma ListedFrom75()
    ensures NodeListed(75, 6, 19, 39, 67, 116, 140, 159, 0)
    ensures NodeListed(76, 6, 10, 47, 80, 88, 145, 168, 0)
    ensures NodeListed(77, 6, 28, 46, 79, 91, 145, 171, 0)
  {
  }

  lemma ListedFrom78()
    ensures NodeListed(78, 6, 5, 31, 86, 103, 144, 168, 0)
    ensures NodeListed(79, 6, 26, 33, 73, 105, 130, 164, 0)
    ensures NodeListed(80, 5, 11, 55, 83, 87, 138, 0, 0)
  {
  }

  lemma ListedFrom81()
    ensures NodeListed(81, 6, 12, 55, 61, 110, 145, 170, 0)
    ensures NodeListed(82, 6, 25, 36, 79, 104, 143, 150, 0)
    ensures NodeListed(83, 6, 16, 30, 81, 112, 120, 160, 0)
  {
  }

  lemma ListedFrom84()
    ensures NodeListed(84, 5, 27, 48, 58, 93, 136, 0, 0)
    ensures NodeListed(85, 6, 6, 54, 82, 100, 130, 167, 0)
    ensures NodeListed(86, 6, 23, 49, 77, 105, 142, 148, 0)
  {
  }

  lemma AllListed(c: nat)
    requires c < 87
    ensures var node := Nm(c);
            NodeListed(c, node.valid, node.n0, node.n1, node.n2, node.n3, node.n4, node.n5, node.n6)
  {
    hide NodeListed;
    ListedFrom0(); ListedFrom3(); ListedFrom6(); ListedFrom9(); ListedFrom12(); ListedFrom15(); ListedFrom18();
    ListedFrom21(); ListedFrom24(); ListedFrom27(); ListedFrom30(); ListedFrom33(); ListedFrom36(); ListedFrom39();
    ListedFrom42(); ListedFrom45(); ListedFrom48(); ListedFrom51(); ListedFrom54(); ListedFrom57(); ListedFrom60();
    ListedFrom63(); ListedFrom66(); ListedFrom69(); ListedFrom72(); ListedFrom75(); ListedFrom78(); ListedFrom81();
    ListedFrom84();
  }

  // Every bit that check c lists is listed with check c.
  lemma NmIsTransposeOfMn(c: nat, j: nat)
    requires c < 87 && j < Nm(c).valid
    ensures ListedOnce(Mn(Nm(c).Neighbor(j)), c)
  {
    hide Mn, ListedOnce, Nm;
    AllListed(c);
  }

  // The check adds up the bit.
  predicate Adds(node: CheckNode, n: nat) {
    || node.n0 == n || node.n1 == n || node.n2 == n || node.n3 == n || node.n4 == n
    || (node.valid > 5 && node.n5 == n) || (node.valid > 6 && node.n6 == n)
  }

  predicate AllAdd(n: nat, c0: nat, c1: nat, c2: nat) {
    Adds(Nm(c0), n) && Adds(Nm(c1), n) && Adds(Nm(c2), n)
  }

  lemma Nodes0()
    ensures Nm(0) == CheckNode(6, 0, 29, 59, 88, 117, 146, 0)
    ensures Nm(1) == CheckNode(6, 1, 30, 60, 89, 118, 146, 0)
    ensures Nm(2) == CheckNode(6, 2, 31, 61, 90, 119, 147, 0)
  {
  }

  lemma Nodes3()
    ensures Nm(3) == CheckNode(6, 3, 32, 62, 91, 120, 148, 0)
    ensures Nm(4) == CheckNode(6, 1, 33, 63, 92, 121, 149, 0)
    ensures Nm(5) == CheckNode(6, 4, 32, 64, 93, 122, 147, 0)
  {
  }

  lemma Nodes6()
    ensures Nm(6) == CheckNode(6, 5, 33, 65, 94, 123, 150, 0)
    ensures Nm(7) == CheckNode(6, 6, 34, 66, 95, 119, 151, 0)
    ensures Nm(8) == CheckNode(6, 7, 35, 67, 96, 124, 152, 0)
  {
  }

  lemma Nodes9()
    ensures Nm(9) == CheckNode(6, 8, 36, 68, 97, 125, 151, 0)
    ensures Nm(10) == CheckNode(6, 9, 37, 69, 98, 126, 153, 0)
    ensures Nm(11) == CheckNode(6, 10, 38, 70, 99, 125, 154, 0)
  {
  }

  lemma Nodes12()
    ensures Nm(12) == CheckNode(6, 11, 39, 60, 100, 127, 144, 0)
    ensures Nm(13) == CheckNode(6, 9, 32, 59, 94, 127, 155, 0)
    ensures Nm(14) == CheckNode(6, 12, 40, 71, 96, 125, 156, 0)
  {
  }

  lemma Nodes15()
    ensures Nm(15) == CheckNode(6, 12, 41, 72, 89, 128, 155, 0)
    ensures Nm(16) == CheckNode(6, 13, 38, 73, 98, 129, 157, 0)
    ensures Nm(17) == CheckNode(6, 14, 42, 74, 101, 130, 158, 0)
  {
  }

  lemma Nodes18()
    ensures Nm(18) == CheckNode(6, 15, 42, 70, 102, 117, 159, 0)
    ensures Nm(19) == CheckNode(6, 16, 43, 75, 97, 129, 155, 0)
    ensures Nm(20) == CheckNode(6, 17, 44, 59, 95, 131, 160, 0)
  {
  }

  lemma Nodes21()
    ensures Nm(21) == CheckNode(6, 18, 45, 72, 82, 132, 161, 0)
    ensures Nm(22) == CheckNode(6, 11, 37, 76, 101, 133, 162, 0)
    ensures Nm(23) == CheckNode(6, 18, 46, 77, 103, 134, 146, 0)
  {
  }

  lemma Nodes24()
    ensures Nm(24) == CheckNode(6, 0, 31, 76, 104, 135, 163, 0)
    ensures Nm(25) == CheckNode(6, 19, 47, 72, 105, 122, 162, 0)
    ensures Nm(26) == CheckNode(6, 20, 40, 78, 106, 136, 164, 0)
  {
  }

  lemma Nodes27()
    ensures Nm(27) == CheckNode(6, 21, 41, 65, 107, 137, 151, 0)
    ensures Nm(28) == CheckNode(6, 17, 41, 79, 108, 138, 153, 0)
    ensures Nm(29) == CheckNode(6, 22, 48, 80, 109, 134, 165, 0)
  {
  }

  lemma Nodes30()
    ensures Nm(30) == CheckNode(6, 15, 49, 81, 90, 128, 157, 0)
    ensures Nm(31) == CheckNode(6, 2, 47, 62, 106, 123, 166, 0)
    ensures Nm(32) == CheckNode(6, 5, 50, 66, 110, 133, 154, 0)
  {
  }

  lemma Nodes33()
    ensures Nm(33) == CheckNode(6, 23, 34, 76, 99, 121, 161, 0)
    ensures Nm(34) == CheckNode(6, 19, 44, 75, 111, 139, 156, 0)
    ensures Nm(35) == CheckNode(6, 20, 35, 63, 91, 129, 158, 0)
  {
  }

  lemma Nodes36()
    ensures Nm(36) == CheckNode(6, 7, 51, 82, 110, 117, 165, 0)
    ensures Nm(37) == CheckNode(6, 20, 52, 83, 112, 137, 167, 0)
    ensures Nm(38) == CheckNode(6, 24, 50, 78, 88, 121, 157, 0)
  {
  }

  lemma Nodes39()
    ensures Nm(39) == CheckNode(7, 21, 43, 74, 106, 132, 154, 171)
    ensures Nm(40) == CheckNode(6, 8, 53, 83, 89, 140, 168, 0)
    ensures Nm(41) == CheckNode(6, 21, 53, 84, 109, 135, 160, 0)
  {
  }

  lemma Nodes42()
    ensures Nm(42) == CheckNode(6, 7, 36, 64, 101, 128, 169, 0)
    ensures Nm(43) == CheckNode(6, 18, 38, 84, 113, 138, 149, 0)
    ensures Nm(44) == CheckNode(6, 25, 54, 70, 92, 141, 166, 0)
  {
  }

  lemma Nodes45()
    ensures Nm(45) == CheckNode(7, 26, 55, 64, 95, 132, 159, 173)
    ensures Nm(46) == CheckNode(6, 27, 30, 85, 99, 116, 170, 0)
    ensures Nm(47) == CheckNode(6, 27, 51, 69, 103, 131, 143, 0)
  {
  }

  lemma Nodes48()
    ensures Nm(48) == CheckNode(6, 23, 56, 67, 94, 136, 141, 0)
    ensures Nm(49) == CheckNode(6, 6, 29, 71, 109, 142, 150, 0)
    ensures Nm(50) == CheckNode(6, 3, 50, 75, 114, 126, 167, 0)
  {
  }

  lemma Nodes51()
    ensures Nm(51) == CheckNode(6, 15, 44, 86, 113, 124, 171, 0)
    ensures Nm(52) == CheckNode(6, 14, 29, 85, 114, 122, 149, 0)
    ensures Nm(53) == CheckNode(6, 22, 45, 63, 90, 143, 172, 0)
  {
  }

  lemma Nodes54()
    ensures Nm(54) == CheckNode(6, 22, 34, 74, 112, 144, 152, 0)
    ensures Nm(55) == CheckNode(7, 13, 40, 86, 107, 116, 148, 169)
    ensures Nm(56) == CheckNode(6, 24, 39, 84, 93, 123, 158, 0)
  {
  }

  lemma Nodes57()
    ensures Nm(57) == CheckNode(6, 24, 57, 68, 115, 142, 173, 0)
    ensures Nm(58) == CheckNode(6, 28, 42, 60, 115, 131, 161, 0)
    ensures Nm(59) == CheckNode(6, 14, 57, 87, 111, 120, 163, 0)
  {
  }

  lemma Nodes60()
    ensures Nm(60) == CheckNode(7, 3, 58, 71, 113, 118, 162, 172)
    ensures Nm(61) == CheckNode(6, 26, 46, 85, 97, 133, 152, 0)
    ensures Nm(62) == CheckNode(5, 4, 43, 77, 108, 140, 0, 0)
  {
  }

  lemma Nodes63()
    ensures Nm(63) == CheckNode(6, 9, 45, 68, 102, 135, 164, 0)
    ensures Nm(64) == CheckNode(6, 8, 49, 58, 92, 127, 163, 0)
    ensures Nm(65) == CheckNode(6, 13, 56, 57, 108, 119, 165, 0)
  {
  }

  lemma Nodes66()
    ensures Nm(66) == CheckNode(6, 16, 54, 61, 115, 124, 153, 0)
    ensures Nm(67) == CheckNode(6, 2, 53, 69, 100, 139, 169, 0)
    ensures Nm(68) == CheckNode(6, 0, 35, 81, 107, 126, 173, 0)
  {
  }

  lemma Nodes69()
    ensures Nm(69) == CheckNode(5, 4, 52, 80, 104, 139, 0, 0)
    ensures Nm(70) == CheckNode(6, 28, 52, 66, 98, 141, 172, 0)
    ensures Nm(71) == CheckNode(6, 17, 48, 73, 96, 114, 166, 0)
  {
  }

  lemma Nodes72()
    ensures Nm(72) == CheckNode(6, 1, 56, 62, 102, 137, 156, 0)
    ensures Nm(73) == CheckNode(6, 25, 37, 78, 111, 134, 170, 0)
    ensures Nm(74) == CheckNode(6, 10, 51, 65, 87, 118, 147, 0)
  {
  }

  lemma Nodes75()
    ensures Nm(75) == CheckNode(6, 19, 39, 67, 116, 140, 159, 0)
    ensures Nm(76) == CheckNode(6, 10, 47, 80, 88, 145, 168, 0)
    ensures Nm(77) == CheckNode(6, 28, 46, 79, 91, 145, 171, 0)
  {
  }

  lemma Nodes78()
    ensures Nm(78) == CheckNode(6, 5, 31, 86, 103, 144, 168, 0)
    ensures Nm(79) == CheckNode(6, 26, 33, 73, 105, 130, 164, 0)
    ensures Nm(80) == CheckNode(5, 11, 55, 83, 87, 138, 0, 0)
  {
  }

  lemma Nodes81()
    ensures Nm(81) == CheckNode(6, 12, 55, 61, 110, 145, 170, 0)
    ensures Nm(82) == CheckNode(6, 25, 36, 79, 104, 143, 150, 0)
    ensures Nm(83) == CheckNode(6, 16, 30, 81, 112, 120, 160, 0)
  {
  }

  lemma Nodes84()
    ensures Nm(84) == CheckNode(5, 27, 48, 58, 93, 136, 0, 0)
    ensures Nm(85) == CheckNode(6, 6, 54, 82, 100, 130, 167, 0)
    ensures Nm(86) == CheckNode(6, 23, 49, 77, 105, 142, 148, 0)
  {
  }

  lemma AllAddIn0(n: nat)
    requires 0 <= n < 6
    ensures var c := Mn0(n); AllAdd(n, c.0, c.1, c.2)
  {
    hide Nm;
    Nodes0(); Nodes3(); Nodes6(); Nodes24(); Nodes30(); Nodes48(); Nodes60(); Nodes66(); Nodes69(); Nodes72();
    Nodes78();
  }

  lemma AllAddIn6(n: nat)
    requires 6 <= n < 12
    ensures var c := Mn6(n); AllAdd(n, c.0, c.1, c.2)
  {
    hide Nm;
    Nodes6(); Nodes9(); Nodes12(); Nodes21(); Nodes36(); Nodes39(); Nodes42(); Nodes48(); Nodes63(); Nodes72();
    Nodes75(); Nodes78(); Nodes84();
  }

  lemma AllAddIn12(n: nat)
    requires 12 <= n < 18
    ensures var c := Mn12(n); AllAdd(n, c.0, c.1, c.2)
  {
    hide Nm;
    Nodes12(); Nodes15(); Nodes18(); Nodes27(); Nodes30(); Nodes51(); Nodes54(); Nodes57(); Nodes63(); Nodes66();
    Nodes69(); Nodes81();
  }

  lemma AllAddIn18(n: nat)
    requires 18 <= n < 24
    ensures var c := Mn18(n); AllAdd(n, c.0, c.1, c.2)
  {
    hide Nm;
    Nodes21(); Nodes24(); Nodes27(); Nodes33(); Nodes36(); Nodes39(); Nodes42(); Nodes48(); Nodes51(); Nodes54();
    Nodes75(); Nodes84();
  }

  lemma AllAddIn24(n: nat)
    requires 24 <= n < 30
    ensures var c := Mn24(n); AllAdd(n, c.0, c.1, c.2)
  {
    hide Nm;
    Nodes0(); Nodes36(); Nodes42(); Nodes45(); Nodes48(); Nodes51(); Nodes54(); Nodes57(); Nodes60(); Nodes69();
    Nodes72(); Nodes75(); Nodes78(); Nodes81(); Nodes84();
  }

  lemma AllAddIn30(n: nat)
    requires 30 <= n < 36
    ensures var c := Mn30(n); AllAdd(n, c.0, c.1, c.2)
  {
    hide Nm;
    Nodes0(); Nodes3(); Nodes6(); Nodes12(); Nodes24(); Nodes33(); Nodes45(); Nodes54(); Nodes66(); Nodes78();
    Nodes81();
  }

  lemma AllAddIn36(n: nat)
    requires 36 <= n < 42
    ensures var c := Mn36(n); AllAdd(n, c.0, c.1, c.2)
  {
    hide Nm;
    Nodes9(); Nodes12(); Nodes15(); Nodes21(); Nodes24(); Nodes27(); Nodes42(); Nodes54(); Nodes72(); Nodes75();
    Nodes81();
  }

  lemma AllAddIn42(n: nat)
    requires 42 <= n < 48
    ensures var c := Mn42(n); AllAdd(n, c.0, c.1, c.2)
  {
    hide Nm;
    Nodes15(); Nodes18(); Nodes21(); Nodes24(); Nodes30(); Nodes33(); Nodes39(); Nodes51(); Nodes57(); Nodes60();
    Nodes63(); Nodes75();
  }

  lemma AllAddIn48(n: nat)
    requires 48 <= n < 54
    ensures var c := Mn48(n); AllAdd(n, c.0, c.1, c.2)
  {
    hide Nm;
    Nodes27(); Nodes30(); Nodes36(); Nodes39(); Nodes45(); Nodes48(); Nodes63(); Nodes66(); Nodes69(); Nodes72();
    Nodes84();
  }

  lemma AllAddIn54(n: nat)
    requires 54 <= n < 60
    ensures var c := Mn54(n); AllAdd(n, c.0, c.1, c.2)
  {
    hide Nm;
    Nodes0(); Nodes12(); Nodes18(); Nodes42(); Nodes45(); Nodes48(); Nodes57(); Nodes60(); Nodes63(); Nodes66();
    Nodes72(); Nodes78(); Nodes81(); Nodes84();
  }

  lemma AllAddIn60(n: nat)
    requires 60 <= n < 66
    ensures var c := Mn60(n); AllAdd(n, c.0, c.1, c.2)
  {
    hide Nm;
    Nodes0(); Nodes3(); Nodes6(); Nodes12(); Nodes27(); Nodes30(); Nodes33(); Nodes42(); Nodes45(); Nodes51();
    Nodes57(); Nodes66(); Nodes72(); Nodes81();
  }

  lemma AllAddIn66(n: nat)
    requires 66 <= n < 72
    ensures var c := Mn66(n); AllAdd(n, c.0, c.1, c.2)
  {
    hide Nm;
    Nodes6(); Nodes9(); Nodes12(); Nodes18(); Nodes30(); Nodes42(); Nodes45(); Nodes48(); Nodes57(); Nodes60();
    Nodes63(); Nodes66(); Nodes69(); Nodes75();
  }

  lemma AllAddIn72(n: nat)
    requires 72 <= n < 78
    ensures var c := Mn72(n); AllAdd(n, c.0, c.1, c.2)
  {
    hide Nm;
    Nodes15(); Nodes18(); Nodes21(); Nodes24(); Nodes33(); Nodes39(); Nodes48(); Nodes54(); Nodes60(); Nodes69();
    Nodes78(); Nodes84();
  }

  lemma AllAddIn78(n: nat)
    requires 78 <= n < 84
    ensures var c := Mn78(n); AllAdd(n, c.0, c.1, c.2)
  {
    hide Nm;
    Nodes21(); Nodes24(); Nodes27(); Nodes30(); Nodes36(); Nodes39(); Nodes66(); Nodes69(); Nodes72(); Nodes75();
    Nodes78(); Nodes81(); Nodes84();
  }

  lemma AllAddIn84(n: nat)
    requires 84 <= n < 90
    ensures var c := Mn84(n); AllAdd(n, c.0, c.1, c.2)
  {
    hide Nm;
    Nodes0(); Nodes15(); Nodes36(); Nodes39(); Nodes42(); Nodes45(); Nodes51(); Nodes54(); Nodes57(); Nodes60();
    Nodes72(); Nodes75(); Nodes78();
  }

  lemma AllAddIn90(n: nat)
    requires 90 <= n < 96
    ensures var c := Mn90(n); AllAdd(n, c.0, c.1, c.2)
  {
    hide Nm;
    Nodes0(); Nodes3(); Nodes6(); Nodes12(); Nodes18(); Nodes30(); Nodes33(); Nodes42(); Nodes45(); Nodes48();
    Nodes51(); Nodes54(); Nodes63(); Nodes75(); Nodes84();
  }

  lemma AllAddIn96(n: nat)
    requires 96 <= n < 102
    ensures var c := Mn96(n); AllAdd(n, c.0, c.1, c.2)
  {
    hide Nm;
    Nodes6(); Nodes9(); Nodes12(); Nodes15(); Nodes18(); Nodes21(); Nodes33(); Nodes42(); Nodes45(); Nodes60();
    Nodes66(); Nodes69(); Nodes84();
  }

  lemma AllAddIn102(n: nat)
    requires 102 <= n < 108
    ensures var c := Mn102(n); AllAdd(n, c.0, c.1, c.2)
  {
    hide Nm;
    Nodes18(); Nodes21(); Nodes24(); Nodes27(); Nodes30(); Nodes39(); Nodes45(); Nodes54(); Nodes63(); Nodes66();
    Nodes69(); Nodes72(); Nodes78(); Nodes81(); Nodes84();
  }

  lemma AllAddIn108(n: nat)
    requires 108 <= n < 114
    ensures var c := Mn108(n); AllAdd(n, c.0, c.1, c.2)
  {
    hide Nm;
    Nodes27(); Nodes30(); Nodes33(); Nodes36(); Nodes39(); Nodes42(); Nodes48(); Nodes51(); Nodes54(); Nodes57();
    Nodes60(); Nodes63(); Nodes72(); Nodes81();
  }

  lemma AllAddIn114(n: nat)
    requires 114 <= n < 120
    ensures var c := Mn114(n); AllAdd(n, c.0, c.1, c.2)
  {
    hide Nm;
    Nodes0(); Nodes6(); Nodes18(); Nodes36(); Nodes45(); Nodes48(); Nodes51(); Nodes54(); Nodes57(); Nodes60();
    Nodes63(); Nodes66(); Nodes69(); Nodes72(); Nodes75();
  }

  lemma AllAddIn120(n: nat)
    requires 120 <= n < 126
    ensures var c := Mn120(n); AllAdd(n, c.0, c.1, c.2)
  {
    hide Nm;
    Nodes3(); Nodes6(); Nodes9(); Nodes12(); Nodes24(); Nodes30(); Nodes33(); Nodes36(); Nodes51(); Nodes54();
    Nodes57(); Nodes66(); Nodes81();
  }

  lemma AllAddIn126(n: nat)
    requires 126 <= n < 132
    ensures var c := Mn126(n); AllAdd(n, c.0, c.1, c.2)
  {
    hide Nm;
    Nodes9(); Nodes12(); Nodes15(); Nodes18(); Nodes30(); Nodes33(); Nodes42(); Nodes45(); Nodes48(); Nodes57();
    Nodes63(); Nodes66(); Nodes78(); Nodes84();
  }

  lemma AllAddIn132(n: nat)
    requires 132 <= n < 138
    ensures var c := Mn132(n); AllAdd(n, c.0, c.1, c.2)
  {
    hide Nm;
    Nodes21(); Nodes24(); Nodes27(); Nodes30(); Nodes36(); Nodes39(); Nodes45(); Nodes48(); Nodes60(); Nodes63();
    Nodes72(); Nodes84();
  }

  lemma AllAddIn138(n: nat)
    requires 138 <= n < 144
    ensures var c := Mn138(n); AllAdd(n, c.0, c.1, c.2)
  {
    hide Nm;
    Nodes27(); Nodes33(); Nodes39(); Nodes42(); Nodes45(); Nodes48(); Nodes51(); Nodes57(); Nodes60(); Nodes66();
    Nodes69(); Nodes75(); Nodes78(); Nodes81(); Nodes84();
  }

  lemma AllAddIn144(n: nat)
    requires 144 <= n < 150
    ensures var c := Mn144(n); AllAdd(n, c.0, c.1, c.2)
  {
    hide Nm;
    Nodes0(); Nodes3(); Nodes12(); Nodes21(); Nodes42(); Nodes51(); Nodes54(); Nodes72(); Nodes75(); Nodes78();
    Nodes81(); Nodes84();
  }

  lemma AllAddIn150(n: nat)
    requires 150 <= n < 156
    ensures var c := Mn150(n); AllAdd(n, c.0, c.1, c.2)
  {
    hide Nm;
    Nodes6(); Nodes9(); Nodes12(); Nodes15(); Nodes18(); Nodes27(); Nodes30(); Nodes39(); Nodes48(); Nodes54();
    Nodes60(); Nodes66(); Nodes81();
  }

  lemma AllAddIn156(n: nat)
    requires 156 <= n < 162
    ensures var c := Mn156(n); AllAdd(n, c.0, c.1, c.2)
  {
    hide Nm;
    Nodes12(); Nodes15(); Nodes18(); Nodes21(); Nodes30(); Nodes33(); Nodes36(); Nodes39(); Nodes45(); Nodes54();
    Nodes57(); Nodes72(); Nodes75(); Nodes81();
  }

  lemma AllAddIn162(n: nat)
    requires 162 <= n < 168
    ensures var c := Mn162(n); AllAdd(n, c.0, c.1, c.2)
  {
    hide Nm;
    Nodes21(); Nodes24(); Nodes27(); Nodes30(); Nodes36(); Nodes42(); Nodes48(); Nodes57(); Nodes60(); Nodes63();
    Nodes69(); Nodes78(); Nodes84();
  }

  lemma AllAddIn168(n: nat)
    requires 168 <= n < 174
    ensures var c := Mn168(n); AllAdd(n, c.0, c.1, c.2)
  {
    hide Nm;
    Nodes39(); Nodes42(); Nodes45(); Nodes51(); Nodes54(); Nodes57(); Nodes60(); Nodes66(); Nodes69(); Nodes72();
    Nodes75(); Nodes78(); Nodes81();
  }

  lemma AllAddToAll(n: nat)
    requires n < 174
    ensures var c := Mn(n); AllAdd(n, c.0, c.1, c.2)
  {
    hide AllAdd, Mn0, Mn6, Mn12, Mn18, Mn24, Mn30, Mn36, Mn42, Mn48, Mn54, Mn60, Mn66, Mn72, Mn78, Mn84, Mn90, Mn96,
    Mn102, Mn108, Mn114, Mn120, Mn126, Mn132, Mn138, Mn144, Mn150, Mn156, Mn162, Mn168;
    if 0 <= n < 6 {
      AllAddIn0(n);
    }
    if 6 <= n < 12 {
      AllAddIn6(n);
    }
    if 12 <= n < 18 {
      AllAddIn12(n);
    }
    if 18 <= n < 24 {
      AllAddIn18(n);
    }
    if 24 <= n < 30 {
      AllAddIn24(n);
    }
    if 30 <= n < 36 {
      AllAddIn30(n);
    }
    if 36 <= n < 42 {
      AllAddIn36(n);
    }
    if 42 <= n < 48 {
      AllAddIn42(n);
    }
    if 48 <= n < 54 {
      AllAddIn48(n);
    }
    if 54 <= n < 60 {
      AllAddIn54(n);
    }
    if 60 <= n < 66 {
      AllAddIn60(n);
    }
    if 66 <= n < 72 {
      AllAddIn66(n);
    }
    if 72 <= n < 78 {
      AllAddIn72(n);
    }
    if 78 <= n < 84 {
      AllAddIn78(n);
    }
    if 84 <= n < 90 {
      AllAddIn84(n);
    }
    if 90 <= n < 96 {
      AllAddIn90(n);
    }
    if 96 <= n < 102 {
      AllAddIn96(n);
    }
    if 102 <= n < 108 {
      AllAddIn102(n);
    }
    if 108 <= n < 114 {
      AllAddIn108(n);
    }
    if 114 <= n < 120 {
      AllAddIn114(n);
    }
    if 120 <= n < 126 {
      AllAddIn120(n);
    }
    if 126 <= n < 132 {
      AllAddIn126(n);
    }
    if 132 <= n < 138 {
      AllAddIn132(n);
    }
    if 138 <= n < 144 {
      AllAddIn138(n);
    }
    if 144 <= n < 150 {
      AllAddIn144(n);
    }
    if 150 <= n < 156 {
      AllAddIn150(n);
    }
    if 156 <= n < 162 {
      AllAddIn156(n);
    }
    if 162 <= n < 168 {
      AllAddIn162(n);
    }
    if 168 <= n < 174 {
      AllAddIn168(n);
    }
  }

  // One of the bits that the check adds up.
  ghost predicate HasNeighbor(node: CheckNode, n: nat) {
    exists j: nat | j < node.valid :: node.Neighbor(j) == n
  }

  lemma AddsIs(node: CheckNode, n: nat)
    ensures Adds(node, n) <==> HasNeighbor(node, n)
  {
    assert node.n0 == node.Neighbor(0) && node.n1 == node.Neighbor(1) && node.n2 == node.Neighbor(2);
    assert node.n3 == node.Neighbor(3) && node.n4 == node.Neighbor(4) && node.n5 == node.Neighbor(5);
    assert node.n6 == node.Neighbor(6);
  }

  // A check lists a bit once.
  predicate Different(node: CheckNode) {
    && node.n0 != node.n1 && node.n0 != node.n2 && node.n0 != node.n3 && node.n0 != node.n4
    && node.n1 != node.n2 && node.n1 != node.n3 && node.n1 != node.n4
    && node.n2 != node.n3 && node.n2 != node.n4 && node.n3 != node.n4
    && (node.valid > 5 ==> node.n5 !in [node.n0, node.n1, node.n2, node.n3, node.n4])
    && (node.valid > 6 ==> node.n6 !in [node.n0, node.n1, node.n2, node.n3, node.n4, node.n5])
  }

  lemma DifferentFrom0(c: nat)
    requires 0 <= c < 15
    ensures Different(Nm(c))
  {
  }

  lemma DifferentFrom15(c: nat)
    requires 15 <= c < 30
    ensures Different(Nm(c))
  {
  }

  lemma DifferentFrom30(c: nat)
    requires 30 <= c < 45
    ensures Different(Nm(c))
  {
  }

  lemma DifferentFrom45(c: nat)
    requires 45 <= c < 60
    ensures Different(Nm(c))
  {
  }

  lemma DifferentFrom60(c: nat)
    requires 60 <= c < 75
    ensures Different(Nm(c))
  {
  }

  lemma DifferentFrom75(c: nat)
    requires 75 <= c < 87
    ensures Different(Nm(c))
  {
  }

  lemma NodesAreDifferent(c: nat)
    requires c < 87
    ensures Different(Nm(c))
  {
    hide Nm, Different;
    if 0 <= c < 15 {
      DifferentFrom0(c);
    }
    if 15 <= c < 30 {
      DifferentFrom15(c);
    }
    if 30 <= c < 45 {
      DifferentFrom30(c);
    }
    if 45 <= c < 60 {
      DifferentFrom45(c);
    }
    if 60 <= c < 75 {
      DifferentFrom60(c);
    }
    if 75 <= c < 87 {
      DifferentFrom75(c);
    }
  }

  lemma BitsDiffer(c: nat, j: nat, k: nat)
    requires c < 87 && j < k < Nm(c).valid
    ensures Nm(c).Neighbor(j) != Nm(c).Neighbor(k)
  {
    hide Nm;
    NodesAreDifferent(c);
  }

  // Both tables list the same edges.
  lemma SameEdges(n: nat, c: nat)
    requires n < 174 && c < 87
    ensures ListedOnce(Mn(n), c) <==> HasNeighbor(Nm(c), n)
    ensures ListedOnce(Mn(n), c) <==> c == Mn(n).0 || c == Mn(n).1 || c == Mn(n).2
  {
    hide Nm, Mn, Adds;
    AllAddToAll(n);
    AddsIs(Nm(c), n);
    if j: nat :| j < Nm(c).valid && Nm(c).Neighbor(j) == n {
      NmIsTransposeOfMn(c, j);
    }
  }
}

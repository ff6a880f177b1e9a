/** The 31-bit generator runs through all of 1 .. 2^31 - 2 before it repeats (rnd.c). */
module Period {
  import opened ModArith
  import opened Rnd

  /** The length of the cycle, 2 * 3^2 * 7 * 11 * 31 * 151 * 331. */
  const CYCLE := 2147483646

  // ----- powers of the multiplier -----

  /** Drawing from v is drawing from 1, scaled by v. */
  lemma {:induction false} IterScale(n: nat, v: Live)
    ensures Iter(n, v) == (v * Iter(n, 1)) % MODULUS
  {
    if n == 0 {
      DivModUnique(v, MODULUS, 0, v);
    } else {
      IterScale(n - 1, v);
      ScaleStep(v, Iter(n - 1, 1));
    }
  }

  lemma ScaleStep(v: int, p: int)
    ensures (v * p % MODULUS) * MULTIPLIER % MODULUS == (v * (p * MULTIPLIER % MODULUS)) % MODULUS
  {
    MulModLeft(v * p, MULTIPLIER, MODULUS);
    MulModRight(v, p * MULTIPLIER, MODULUS);
    assert v * p * MULTIPLIER == v * (p * MULTIPLIER);
  }

  lemma FirstPower()
    ensures Iter(1, 1) == MULTIPLIER
  {
    assert Iter(1, 1) == NextRand(Iter(0, 1));
  }

  /** Powers multiply as exponents add. */
  lemma Times(a: nat, p: int, b: nat, q: int)
    requires Iter(a, 1) == p && Iter(b, 1) == q
    ensures Iter(a + b, 1) == (p * q) % MODULUS
  {
    IterAdd(b, a, 1);
    IterScale(b, p);
  }

  // ----- step counts that lead back -----

  predicate Returns(n: nat)
  {
    Iter(n, 1) == 1
  }

  lemma ReturnsAdd(a: nat, b: nat)
    requires Returns(a)
    ensures Returns(a + b) <==> Returns(b)
  {
    IterAdd(b, a, 1);
  }

  lemma {:induction false} ReturnsTimes(a: nat, k: nat)
    requires Returns(a)
    ensures 0 <= k * a && Returns(k * a)
  {
    if k > 0 {
      ReturnsTimes(a, k - 1);
      assert k * a == a + (k - 1) * a;
      ReturnsAdd(a, (k - 1) * a);
    }
  }

  predicate Divides(d: int, n: int)
    requires d > 0
  {
    n % d == 0
  }

  lemma DividesTimes(d: int, k: int, n: int)
    requires d > 0 && n == k * d
    ensures Divides(d, n) && n / d == k
  {
    DivModUnique(n, d, k, 0);
  }

  lemma DividesSum(d: int, a: int, b: int, x: int, y: int)
    requires d > 0 && Divides(d, a) && Divides(d, b)
    ensures Divides(d, a * x + b * y)
  {
    var p, q := a / d, b / d;
    assert a == p * d && b == q * d;
    assert a * x + b * y == (p * x + q * y) * d by {
      assert p * d * x == p * x * d && q * d * y == q * y * d;
    }
    DividesTimes(d, p * x + q * y, a * x + b * y);
  }

  /** Euclid's algorithm on counts that lead back leads back too. */
  lemma {:induction false} ReturnsGcd(a: nat, b: nat) returns (g: nat)
    requires a > 0 && Returns(a) && Returns(b)
    ensures g > 0 && Returns(g) && Divides(g, a) && Divides(g, b)
    decreases b
  {
    if b == 0 {
      g := a;
      DividesTimes(a, 1, a);
      DividesTimes(a, 0, 0);
    } else {
      var q, r := a / b, a % b;
      ReturnsTimes(b, q);
      assert a == q * b + r;
      ReturnsAdd(q * b, r);
      g := ReturnsGcd(b, r);
      DividesSum(g, b, r, q, 1);
      assert b * q + r * 1 == a;
    }
  }

  // ----- the prime factors of the cycle length -----

  predicate Prime(q: nat)
  {
    q >= 2 && forall g :: 1 < g < q ==> q % g != 0
  }

  predicate NoDivisorsUpTo(q: nat, g: nat)
  {
    g < 2 || (q % g != 0 && NoDivisorsUpTo(q, g - 1))
  }

  lemma {:induction false} NoDivisorBelow(q: nat, r: nat, g: nat)
    requires NoDivisorsUpTo(q, r) && 2 <= g <= r
    ensures q % g != 0
  {
    if g < r { NoDivisorBelow(q, r - 1, g); }
  }

  lemma Cofactor(q: nat, g: nat)
    requires 1 < g < q && q % g == 0
    ensures var h := q / g; 1 < h < q && q == h * g && q % h == 0
  {
    var h := q / g;
    assert q == h * g;
    if h <= 1 { MulMono(h, 1, g); }
    if h >= q { MulMono(q, h, g); MulMono(2, g, q); }
    DividesTimes(h, g, q);
  }

  /** Trial division up to the square root suffices. */
  lemma TrialDivision(q: nat, r: nat)
    requires q >= 2 && NoDivisorsUpTo(q, r) && r < q < (r + 1) * (r + 1)
    ensures Prime(q)
  {
    hide NoDivisorsUpTo;
    forall g | 1 < g < q ensures q % g != 0 { NoDivisorAtAll(q, r, g); }
  }

  lemma NoDivisorAtAll(q: nat, r: nat, g: nat)
    requires q >= 2 && NoDivisorsUpTo(q, r) && r < q < (r + 1) * (r + 1) && 1 < g < q
    ensures q % g != 0
  {
    hide NoDivisorsUpTo;
    if g <= r {
      NoDivisorBelow(q, r, g);
    } else if q % g == 0 {
      Cofactor(q, g);
      var h := q / g;
      if h > r { ProductAbove(h, g, r + 1); }
      NoDivisorBelow(q, r, h);
    }
  }

  lemma ProductAbove(h: nat, g: nat, r: nat)
    requires h >= r && g >= r
    ensures h * g >= r * r
  {
    MulMono(r, h, g);
    MulMono(r, g, r);
  }

  lemma {:induction false} Bezout(a: nat, b: nat) returns (x: int, y: int, g: nat)
    requires a > 0
    ensures g > 0 && a * x + b * y == g && Divides(g, a) && Divides(g, b)
    decreases b
  {
    if b == 0 {
      x, y, g := 1, 0, a;
      DividesTimes(a, 1, a);
      DividesTimes(a, 0, 0);
    } else {
      var q, r := a / b, a % b;
      var x', y';
      x', y', g := Bezout(b, r);
      DividesSum(g, b, r, q, 1);
      assert b * q + r * 1 == a;
      x, y := y', x' - q * y';
      assert a * y' == q * b * y' + r * y';
      assert b * (x' - q * y') == b * x' - q * b * y' by { assert b * (q * y') == q * b * y'; }
    }
  }

  /** A divisor that is free of the prime q divides what is left without q. */
  lemma StripPrime(c: nat, q: nat, m: nat)
    requires c > 0 && Prime(q) && c % q != 0 && Divides(c, q * m)
    ensures Divides(c, m)
  {
    var x, y, g := Bezout(c, q);
    assert g <= q by { if g > q { DivModUnique(q, g, 0, q); } }
    assert g == 1;
    DividesTimes(c, m, m * c);
    DividesSum(c, m * c, q * m, x, y);
    assert m * c * x + q * m * y == m * (c * x + q * y) by {
      assert m * (c * x + q * y) == m * (c * x) + m * (q * y);
      assert m * (c * x) == m * c * x && m * (q * y) == q * m * y;
    }
  }

  lemma CyclePrimes()
    ensures Prime(2) && Prime(3) && Prime(7) && Prime(11) && Prime(31) && Prime(151) && Prime(331)
  {
    TrialDivision(2, 1);
    TrialDivision(3, 1);
    TrialDivision(7, 2);
    TrialDivision(11, 3);
    TrialDivision(31, 5);
    TrialDivision(151, 12);
    assert NoDivisorsUpTo(331, 9);
    TrialDivision(331, 18);
  }

  /** A divisor of the cycle length other than 1 contains one of its prime factors. */
  lemma SomePrimeDivides(c: nat)
    requires c > 1 && Divides(c, CYCLE)
    ensures c % 2 == 0 || c % 3 == 0 || c % 7 == 0 || c % 11 == 0 || c % 31 == 0 || c % 151 == 0 || c % 331 == 0
  {
    if c % 2 != 0 && c % 3 != 0 && c % 7 != 0 && c % 11 != 0 && c % 31 != 0 && c % 151 != 0 && c % 331 != 0 {
      CyclePrimes();
      StripPrime(c, 2, 1073741823);
      StripPrime(c, 3, 357913941);
      StripPrime(c, 3, 119304647);
      StripPrime(c, 7, 17043521);
      StripPrime(c, 11, 1549411);
      StripPrime(c, 31, 49981);
      StripPrime(c, 151, 331);
      StripPrime(c, 331, 1);
      DivModUnique(1, c, 0, 1);
    }
  }

  // ----- the powers that decide it -----

  lemma Power331()
    ensures Iter(331, 1) == 555860589
  {
    hide Iter;
    FirstPower();
    Times(1, 16807, 1, 16807); Times(2, 282475249, 2, 282475249); Times(4, 984943658, 1, 16807);
    Times(5, 1144108930, 5, 1144108930); Times(10, 2007237709, 10, 2007237709); Times(20, 143542612, 20, 143542612);
    Times(40, 784558821, 1, 16807); Times(41, 530511967, 41, 530511967); Times(82, 269220094, 82, 269220094);
    Times(164, 436476770, 1, 16807); Times(165, 60935238, 165, 60935238); Times(330, 925238588, 1, 16807);
  }

  lemma Power49981()
    ensures Iter(49981, 1) == 560223525
  {
    hide Iter;
    Power331();
    Times(331, 555860589, 331, 555860589); Times(662, 1448530832, 662, 1448530832);
    Times(1324, 1305712687, 1324, 1305712687); Times(2648, 759417218, 331, 555860589);
    Times(2979, 1812642440, 2979, 1812642440); Times(5958, 901514220, 5958, 901514220);
    Times(11916, 289286395, 331, 555860589); Times(12247, 441924519, 12247, 441924519);
    Times(24494, 181670560, 331, 555860589); Times(24825, 1540797964, 24825, 1540797964);
    Times(49650, 661242771, 331, 555860589);
  }

  lemma Power1549411()
    ensures Iter(1549411, 1) == 942143378
  {
    hide Iter;
    Power49981();
    Times(49981, 560223525, 49981, 560223525); Times(99962, 871342565, 49981, 560223525);
    Times(149943, 1650715800, 149943, 1650715800); Times(299886, 64613003, 49981, 560223525);
    Times(349867, 1940668509, 349867, 1940668509); Times(699734, 61803838, 49981, 560223525);
    Times(749715, 1390445717, 749715, 1390445717); Times(1499430, 1930637928, 49981, 560223525);
  }

  lemma Power17043521()
    ensures Iter(17043521, 1) == 430777829
  {
    hide Iter;
    Power1549411();
    Times(1549411, 942143378, 1549411, 942143378); Times(3098822, 1451889758, 3098822, 1451889758);
    Times(6197644, 1501098710, 1549411, 942143378); Times(7747055, 790745649, 7747055, 790745649);
    Times(15494110, 1821461676, 1549411, 942143378);
  }

  lemma Power119304647()
    ensures Iter(119304647, 1) == 1074490442
  {
    hide Iter;
    Power17043521();
    Times(17043521, 430777829, 17043521, 430777829); Times(34087042, 2084867038, 17043521, 430777829);
    Times(51130563, 1568387158, 51130563, 1568387158); Times(102261126, 744525991, 17043521, 430777829);
  }

  lemma Power357913941()
    ensures Iter(357913941, 1) == 634005912
  {
    hide Iter;
    Power119304647();
    Times(119304647, 1074490442, 119304647, 1074490442); Times(238609294, 473297587, 119304647, 1074490442);
  }

  lemma Power1073741823()
    ensures Iter(1073741823, 1) == 2147483646
  {
    hide Iter;
    Power357913941();
    Times(357913941, 634005912, 357913941, 634005912); Times(715827882, 634005911, 357913941, 634005912);
  }

  lemma Power2147483646()
    ensures Iter(2147483646, 1) == 1
  {
    hide Iter;
    Power1073741823();
    Times(1073741823, 2147483646, 1073741823, 2147483646);
  }

  lemma Power715827882()
    ensures Iter(715827882, 1) == 634005911
  {
    hide Iter;
    Power357913941();
    Times(357913941, 634005912, 357913941, 634005912);
  }

  lemma Power306783378()
    ensures Iter(306783378, 1) == 1600955193
  {
    hide Iter;
    Power17043521();
    Times(17043521, 430777829, 17043521, 430777829); Times(34087042, 2084867038, 34087042, 2084867038);
    Times(68174084, 587188280, 68174084, 587188280); Times(136348168, 1706651070, 17043521, 430777829);
    Times(153391689, 394883873, 153391689, 394883873);
  }

  lemma Power195225786()
    ensures Iter(195225786, 1) == 298192073
  {
    hide Iter;
    Power1549411();
    Times(1549411, 942143378, 1549411, 942143378); Times(3098822, 1451889758, 1549411, 942143378);
    Times(4648233, 1689239032, 4648233, 1689239032); Times(9296466, 1429973598, 1549411, 942143378);
    Times(10845877, 1461621549, 10845877, 1461621549); Times(21691754, 611601736, 1549411, 942143378);
    Times(23241165, 383438545, 23241165, 383438545); Times(46482330, 1394455490, 1549411, 942143378);
    Times(48031741, 107324696, 48031741, 107324696); Times(96063482, 1337576049, 1549411, 942143378);
    Times(97612893, 1819912402, 97612893, 1819912402);
  }

  lemma Power69273666()
    ensures Iter(69273666, 1) == 16384
  {
    hide Iter;
    Power49981();
    Times(49981, 560223525, 49981, 560223525); Times(99962, 871342565, 99962, 871342565);
    Times(199924, 51022971, 49981, 560223525); Times(249905, 755121986, 249905, 755121986);
    Times(499810, 1350377864, 499810, 1350377864); Times(999620, 1976646781, 49981, 560223525);
    Times(1049601, 1558415999, 1049601, 1558415999); Times(2099202, 1938806421, 49981, 560223525);
    Times(2149183, 459482906, 2149183, 459482906); Times(4298366, 1173426161, 4298366, 1173426161);
    Times(8596732, 351783951, 49981, 560223525); Times(8646713, 2028325712, 8646713, 2028325712);
    Times(17293426, 1355313857, 17293426, 1355313857); Times(34586852, 1409040089, 49981, 560223525);
    Times(34636833, 2147483519, 34636833, 2147483519);
  }

  lemma Power14221746()
    ensures Iter(14221746, 1) == 1013763951
  {
    hide Iter;
    Power331();
    Times(331, 555860589, 331, 555860589); Times(662, 1448530832, 662, 1448530832);
    Times(1324, 1305712687, 331, 555860589); Times(1655, 1033862659, 1655, 1033862659);
    Times(3310, 1366015711, 3310, 1366015711); Times(6620, 1854176901, 6620, 1854176901);
    Times(13240, 1662743475, 331, 555860589); Times(13571, 387457193, 13571, 387457193);
    Times(27142, 101015514, 331, 555860589); Times(27473, 429260048, 27473, 429260048);
    Times(54946, 870705051, 331, 555860589); Times(55277, 902891727, 55277, 902891727);
    Times(110554, 787220491, 331, 555860589); Times(110885, 1495792865, 110885, 1495792865);
    Times(221770, 913532392, 331, 555860589); Times(222101, 995905667, 222101, 995905667);
    Times(444202, 1963032533, 444202, 1963032533); Times(888404, 1551090927, 331, 555860589);
    Times(888735, 1648702159, 888735, 1648702159); Times(1777470, 891133591, 1777470, 891133591);
    Times(3554940, 1820281664, 331, 555860589); Times(3555271, 948894021, 3555271, 948894021);
    Times(7110542, 1145112168, 331, 555860589); Times(7110873, 597511775, 7110873, 597511775);
  }

  lemma Power151()
    ensures Iter(151, 1) == 996497972
  {
    hide Iter;
    FirstPower();
    Times(1, 16807, 1, 16807); Times(2, 282475249, 2, 282475249); Times(4, 984943658, 4, 984943658);
    Times(8, 1457850878, 1, 16807); Times(9, 1458777923, 9, 1458777923);
    Times(18, 16531729, 18, 16531729); Times(36, 704877633, 1, 16807);
    Times(37, 1358580979, 37, 1358580979); Times(74, 1962408013, 1, 16807);
    Times(75, 1137623865, 75, 1137623865); Times(150, 1049077006, 1, 16807);
  }

  lemma Power6487866()
    ensures Iter(6487866, 1) == 759513457
  {
    hide Iter;
    Power151();
    Times(151, 996497972, 151, 996497972); Times(302, 1616927224, 302, 1616927224);
    Times(604, 1647259579, 151, 996497972); Times(755, 598994537, 755, 598994537);
    Times(1510, 80923233, 1510, 80923233); Times(3020, 793755784, 3020, 793755784);
    Times(6040, 1715014484, 151, 996497972); Times(6191, 1428492629, 6191, 1428492629);
    Times(12382, 778152954, 151, 996497972); Times(12533, 1333039566, 12533, 1333039566);
    Times(25066, 1259163623, 151, 996497972); Times(25217, 1388445989, 25217, 1388445989);
    Times(50434, 630654684, 151, 996497972); Times(50585, 894705026, 50585, 894705026);
    Times(101170, 1257149882, 151, 996497972); Times(101321, 742464476, 101321, 742464476);
    Times(202642, 1477249365, 202642, 1477249365); Times(405284, 529204322, 151, 996497972);
    Times(405435, 655648217, 405435, 655648217); Times(810870, 1012622145, 810870, 1012622145);
    Times(1621740, 1260864717, 151, 996497972); Times(1621891, 418031437, 1621891, 418031437);
    Times(3243782, 989018642, 151, 996497972); Times(3243933, 642181603, 3243933, 642181603);
  }

  lemma CycleReturns()
    ensures Returns(CYCLE)
  {
    hide Iter;
    Power2147483646();
  }

  /** No proper divisor of the cycle length of the form CYCLE / prime leads back. */
  lemma NoShortcut(q: int)
    requires q in {2, 3, 7, 11, 31, 151, 331}
    ensures !Returns(CYCLE / q)
  {
    hide Iter;
    Power1073741823();
    Power715827882();
    Power306783378();
    Power195225786();
    Power69273666();
    Power14221746();
    Power6487866();
  }

  /** No shorter count leads back. */
  lemma NoShorterCycle(n: nat)
    requires 0 < n < CYCLE
    ensures !Returns(n)
  {
    hide Iter, Returns;
    if Returns(n) {
      CycleReturns();
      var g := ReturnsGcd(CYCLE, n);
      assert g <= n by { if g > n { DivModUnique(n, g, 0, n); } }
      var c := CYCLE / g;
      assert CYCLE == c * g;
      DividesTimes(c, g, CYCLE);
      SomePrimeDivides(c);
      var q := if c % 2 == 0 then 2 else if c % 3 == 0 then 3 else if c % 7 == 0 then 7 else if c % 11 == 0 then 11
               else if c % 31 == 0 then 31 else if c % 151 == 0 then 151 else 331;
      QuotientReturns(g, c, q);
      NoShortcut(q);
    }
  }

  lemma QuotientReturns(g: nat, c: nat, q: nat)
    requires g > 0 && q > 0 && CYCLE == c * g && c % q == 0 && Returns(g)
    ensures Returns(CYCLE / q)
  {
    hide Iter, Returns;
    var e := c / q;
    assert c == e * q;
    assert CYCLE == (e * g) * q by { assert e * q * g == e * g * q; }
    DivModUnique(CYCLE, q, e * g, 0);
    ReturnsTimes(g, e);
  }

  // ----- every value is reached -----

  /** The first n values drawn from 1 on. */
  ghost function Orbit(n: nat): set<int>
  {
    if n == 0 then {} else Orbit(n - 1) + {Iter(n - 1, 1)}
  }

  lemma {:induction false} OrbitMember(n: nat, x: int) returns (i: nat)
    requires x in Orbit(n)
    ensures i < n && x == Iter(i, 1)
  {
    if x == Iter(n - 1, 1) { i := n - 1; } else { i := OrbitMember(n - 1, x); }
  }

  lemma {:induction false} OrbitSize(n: nat)
    requires n <= CYCLE
    ensures |Orbit(n)| == n
  {
    if n > 0 {
      OrbitSize(n - 1);
      var x := Iter(n - 1, 1);
      if x in Orbit(n - 1) {
        var i := OrbitMember(n - 1, x);
        IterAdd(i, n - 1 - i, 1);
        IterInjective(i, Iter(n - 1 - i, 1), 1);
        NoShorterCycle(n - 1 - i);
      }
    }
  }

  ghost function UpTo(n: nat): set<int>
  {
    if n == 0 then {} else UpTo(n - 1) + {n}
  }

  lemma {:induction false} UpToMembers(n: nat)
    ensures |UpTo(n)| == n && forall x :: x in UpTo(n) <==> 1 <= x <= n
  {
    if n > 0 { UpToMembers(n - 1); }
  }

  lemma {:induction false} OrbitInside(n: nat, m: nat)
    requires m == CYCLE
    ensures Orbit(n) <= UpTo(m)
  {
    hide Iter, UpTo;
    UpToMembers(m);
    if n > 0 { OrbitInside(n - 1, m); }
  }

  lemma SameSizeSubset(a: set<int>, b: set<int>)
    requires a <= b && |a| == |b|
    ensures a == b
  {
    assert b == a + (b - a);
    assert |b - a| == 0;
  }

  lemma FromOne(v: Live) returns (i: nat)
    ensures i < CYCLE && v == Iter(i, 1)
  {
    hide Iter;
    var m := CYCLE;
    OrbitSize(m);
    UpToMembers(m);
    OrbitInside(m, m);
    SameSizeSubset(Orbit(m), UpTo(m));
    i := OrbitMember(m, v);
  }

  /** A stream returns to its value after the multiples of 2^31 - 2 draws, and after no other number of draws. */
  lemma FullPeriod(n: nat, v: Live)
    ensures Iter(n, v) == v <==> n % CYCLE == 0
  {
    hide Iter;
    var i := FromOne(v);
    IterAdd(n, i, 1);
    IterAdd(i, n, 1);
    IterInjective(i, Iter(n, 1), 1);
    assert Iter(n, v) == v <==> Returns(n) by { IterZero(); }
    CycleReturns();
    var q, r := n / CYCLE, n % CYCLE;
    ReturnsTimes(CYCLE, q);
    assert n == q * CYCLE + r;
    ReturnsAdd(q * CYCLE, r);
    if r > 0 { NoShorterCycle(r); } else { IterZero(); }
  }

  lemma IterZero()
    ensures forall v: Live :: Iter(0, v) == v
  {}

  /** The routine generates all numbers in its range: from any value it reaches any other within one cycle. */
  lemma ReachesEveryValue(v: Live, w: Live) returns (n: nat)
    ensures n < CYCLE && Iter(n, v) == w
  {
    hide Iter;
    var i := FromOne(v);
    var j := FromOne(w);
    if i <= j {
      n := j - i;
      IterAdd(n, i, 1);
    } else {
      n := CYCLE - i + j;
      IterAdd(n, i, 1);
      IterAdd(j, CYCLE, 1);
      CycleReturns();
    }
  }
}

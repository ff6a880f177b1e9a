/** Stream values far along, reached by doubling (rnd.c, rng64.c). */
module FarDraws {
  import opened ModArith
  import opened Rnd
  import opened Rng64
  import Period

  /** The seed that the customer keys are declared with. */
  const DECLARED: Live := 851767375

  // ----- the 64-bit generator -----

  /** What the loop of the jump-ahead holds after the bits of n. */
  predicate JumpIs(n: nat, apow: nat, dsum: nat)
  {
    apow == Power(n) % WORD && dsum == Geometric(n) % WORD
  }

  lemma FirstJump()
    ensures JumpIs(1, 6364136223846793005, 1)
  {
    assert Power(1) == RNG_A * Power(0) && Geometric(1) == Geometric(0) + Power(0);
  }

  /** Doubling, with the quotients by 2^64 of the two products. */
  lemma Twice(n: nat, apow: nat, dsum: nat, a: nat, qa: nat, d: nat, qd: nat)
    requires JumpIs(n, apow, dsum) && a < 0x1_0000_0000_0000_0000 && d < 0x1_0000_0000_0000_0000
    requires apow * apow == qa * 0x1_0000_0000_0000_0000 + a
    requires dsum * (apow + 1) == qd * 0x1_0000_0000_0000_0000 + d
    ensures JumpIs(2 * n, a, d)
  {
    hide Power, Geometric;
    DoubleSteps(n, apow, dsum);
    DivModUnique(apow * apow, WORD, qa, a);
    DivModUnique(dsum * (apow + 1), WORD, qd, d);
  }

  /** One more draw. */
  lemma AndOne(n: nat, apow: nat, dsum: nat, a: nat, qa: nat, d: nat, qd: nat)
    requires JumpIs(n, apow, dsum) && a < 0x1_0000_0000_0000_0000 && d < 0x1_0000_0000_0000_0000
    requires apow * 6364136223846793005 == qa * 0x1_0000_0000_0000_0000 + a
    requires dsum + apow == qd * 0x1_0000_0000_0000_0000 + d
    ensures JumpIs(n + 1, a, d)
  {
    hide Power, Geometric;
    OneMoreStep(n, apow, dsum);
    DivModUnique(apow * RNG_A, WORD, qa, a);
    DivModUnique(dsum + apow, WORD, qd, d);
  }

  lemma Jump23437()
    ensures JumpIs(23437, 2525706676219160221, 12446819766559296021)
  {
    hide JumpIs;
    FirstJump();
    Twice(1, 6364136223846793005, 1,
          7520897724310334953, 2195630281085919242, 6364136223846793006, 0);
    Twice(2, 7520897724310334953, 6364136223846793006,
          18108194425815612945, 3066335303049588304, 14678909342070756876, 2594713595628320003);
    AndOne(4, 18108194425815612945, 14678909342070756876,
           7596774164172298237, 6247336420633655168, 14340359694176818205, 1);
    Twice(5, 7596774164172298237, 14340359694176818205,
          13869413664309571593, 3128518370007955561, 12360490266823512006, 5905674930727913899);
    AndOne(10, 13869413664309571593, 12360490266823512006,
           2074577609206900885, 4784954870726853005, 7783159857423531983, 1);
    Twice(11, 2074577609206900885, 7783159857423531983,
          4251702274019944121, 233313382536516794, 8045448350685608778, 875318110587403885);
    Twice(22, 4251702274019944121, 8045448350685608778,
          4309366285528658353, 979954628018600343, 3117779943342051268, 1854357111012988553);
    AndOne(44, 4309366285528658353, 3117779943342051268,
           1263083909798185757, 1486733592116341513, 7427146228870709621, 0);
    Twice(45, 1263083909798185757, 7427146228870709621,
          11741635752433942857, 86485775311688812, 7961066993224020662, 508550932344472591);
    AndOne(90, 11741635752433942857, 7961066993224020662,
           2799421531563913429, 4050870393208232891, 1255958671948411903, 1);
    Twice(91, 2799421531563913429, 1255958671948411903,
          3023487927837462841, 424831660268581575, 9515616280286234410, 190600451492020930);
    AndOne(182, 3023487927837462841, 9515616280286234410,
           17963464163153825285, 1043104895206822495, 12539104208123697251, 0);
    Twice(183, 17963464163153825285, 12539104208123697251,
          10429842006052375577, 17492845536942560678, 9346668560959781970, 12210596524819977201);
    Twice(366, 10429842006052375577, 9346668560959781970,
          9921385842512255601, 5897062583865467158, 6663567444721203284, 5284633211379715486);
    Twice(732, 9921385842512255601, 6663567444721203284,
          18016554929950533089, 5336112250632424807, 5323326628764851560, 3583929144488192788);
    Twice(1464, 18016554929950533089, 5323326628764851560,
          17237976783698120641, 17596398055228730205, 5986877362675252688, 5199183456656679157);
    AndOne(2928, 17237976783698120641, 5986877362675252688,
           1460344823083385837, 5947110885075673348, 4778110072663821713, 1);
    Twice(2929, 1460344823083385837, 4778110072663821713,
          13250339480664795497, 115608857247922367, 13896878209478496206, 378261241162978468);
    AndOne(5858, 13250339480664795497, 13896878209478496206,
           6123489719575649909, 4571373957930581311, 8700473616433740087, 1);
    Twice(5859, 6123489719575649909, 8700473616433740087,
          14051748461959684473, 2032723292301207688, 11708675365721821530, 2888166092226669165);
    Twice(11718, 14051748461959684473, 11708675365721821530,
          7697637496144227121, 10703874572618808113, 4749182270415068900, 8919046114829151520);
    AndOne(23436, 7697637496144227121, 4749182270415068900,
           2525706676219160221, 2655688908107748749, 12446819766559296021, 0);
  }

  lemma Jump1500000()
    ensures JumpIs(1500000, 12121260589863539073, 6096875596184699168)
  {
    hide JumpIs;
    Jump23437();
    Twice(23437, 2525706676219160221, 12446819766559296021,
          700168804794301513, 345816811292444658, 55982245195142902, 1704204040370447360);
    AndOne(46874, 700168804794301513, 55982245195142902,
           4393391072898420693, 241558598937229917, 756151049989444415, 0);
    Twice(46875, 4393391072898420693, 756151049989444415,
          4206255732825106233, 1046357288977231401, 11964204423827539882, 180089627714900083);
    Twice(93750, 4206255732825106233, 11964204423827539882,
          18345586281832344241, 959117078831255078, 16879503670756057732, 2728096798292928816);
    Twice(187500, 18345586281832344241, 16879503670756057732,
          13701863474209033825, 18244983216513741666, 4509310454002657224, 16786940272440664370);
    Twice(375000, 13701863474209033825, 4509310454002657224,
          15540658427046969537, 10177463400353330143, 11837560352579857040, 3349423397250130849);
    Twice(750000, 15540658427046969537, 11837560352579857040,
          12121260589863539073, 13092395242277520981, 6096875596184699168, 9972680344776045822);
  }

  lemma Jump86124()
    ensures JumpIs(86124, 15560073875574078129, 4046794966193462916)
  {
    hide JumpIs;
    FirstJump();
    Twice(1, 6364136223846793005, 1,
          7520897724310334953, 2195630281085919242, 6364136223846793006, 0);
    Twice(2, 7520897724310334953, 6364136223846793006,
          18108194425815612945, 3066335303049588304, 14678909342070756876, 2594713595628320003);
    AndOne(4, 18108194425815612945, 14678909342070756876,
           7596774164172298237, 6247336420633655168, 14340359694176818205, 1);
    Twice(5, 7596774164172298237, 14340359694176818205,
          13869413664309571593, 3128518370007955561, 12360490266823512006, 5905674930727913899);
    Twice(10, 13869413664309571593, 12360490266823512006,
          14624333832639012945, 10427890939620666519, 8503743914302291388, 9293388140434756786);
    AndOne(20, 14624333832639012945, 8503743914302291388,
           3364114677453856061, 5045402718335104204, 4681333673231752717, 1);
    Twice(21, 3364114677453856061, 4681333673231752717,
          10944390931997253769, 613510303923494172, 14724956123229208614, 853730244060948615);
    Twice(42, 10944390931997253769, 14724956123229208614,
          11824400586840082769, 6493270161594245837, 15363556471169733756, 8736266715967917414);
    Twice(84, 11824400586840082769, 15363556471169733756,
          10711536136404257697, 7579464900655917079, 996526496227421112, 9848071043201621388);
    Twice(168, 10711536136404257697, 996526496227421112,
          1866292269233781569, 6219905580249164890, 668135120370864752, 578656565764225189);
    Twice(336, 1866292269233781569, 668135120370864752,
          11295485542066554497, 188816347225516304, 12889028853536821472, 67596504020938273);
    Twice(672, 11295485542066554497, 12889028853536821472,
          10715823127139077377, 6916558993891718902, 13158289464114729408, 7892332570163251053);
    AndOne(1344, 10715823127139077377, 13158289464114729408,
           11453621143472703533, 3696964508167914322, 5427368517544255169, 1);
    Twice(1345, 11453621143472703533, 5427368517544255169,
          14655156770439354345, 7111576805858737084, 4491285644115021486, 3369864218724551235);
    AndOne(2690, 14655156770439354345, 4491285644115021486,
           17380577251319974645, 5056036647780685880, 699698340844824215, 1);
    Twice(2691, 17380577251319974645, 699698340844824215,
          15053599972067315321, 16376031693291317519, 14573285844606974746, 659257862367487734);
    Twice(5382, 15053599972067315321, 14573285844606974746,
          12894100320290829617, 12284599993014090689, 983105411270121060, 11892636147967558872);
    AndOne(10764, 12894100320290829617, 983105411270121060,
           8427006048249833629, 4448471263784144366, 13877205731560950677, 0);
    Twice(10765, 8427006048249833629, 13877205731560950677,
          837479172474597449, 3849700014998832062, 14714624873369972214, 6339508813337954731);
    AndOne(21530, 837479172474597449, 14714624873369972214,
           12960400904843260885, 288930746638315460, 15552104045844569663, 0);
    Twice(21531, 12960400904843260885, 15552104045844569663,
          7667266624153128761, 9105779911244990504, 2437587265764758954, 10926670990966236629);
    Twice(43062, 7667266624153128761, 2437587265764758954,
          15560073875574078129, 3186848435200886737, 4046794966193462916, 1013166953017764927);
  }

  lemma Jump705537817()
    ensures JumpIs(705537817, 8739544785321771789, 12408723239940645865)
  {
    hide JumpIs;
    Jump86124();
    AndOne(86124, 15560073875574078129, 4046794966193462916,
           2242835024949583901, 5368233515984341834, 1160124768057989429, 1);
    Twice(86125, 2242835024949583901, 1160124768057989429,
          5682721010417943369, 272693594546575702, 16908742679607317558, 141052993022238400);
    Twice(172250, 5682721010417943369, 16908742679607317558,
          11656614606375701201, 1750624281076801435, 1943778243346037148, 5208922880981474507);
    Twice(344500, 11656614606375701201, 1943778243346037148,
          10600688376812895905, 7365888719366137931, 9553260879098796536, 1228285803305251210);
    AndOne(689000, 10600688376812895905, 9553260879098796536,
           3401577300595843405, 3657242959896493070, 1707205182202140825, 1);
    Twice(689001, 3401577300595843405, 1707205182202140825,
          7944086696865100073, 627250428893823047, 2597987242815829918, 314808422127721052);
    AndOne(1378002, 7944086696865100073, 2597987242815829918,
           5605587345673206581, 2740714009522862149, 10542073939680929991, 0);
    Twice(1378003, 5605587345673206581, 10542073939680929991,
          8673019310188427513, 1703423073709541078, 15863147127799871226, 3203520146281461621);
    AndOne(2756006, 8673019310188427513, 15863147127799871226,
           6339237611223108293, 2992196137244570692, 6089422364278747123, 1);
    Twice(2756007, 6339237611223108293, 6089422364278747123,
          12705026396889643929, 2178483819744589870, 1415936577798099954, 2092634620397606088);
    Twice(5512014, 12705026396889643929, 1415936577798099954,
          11990695188071604593, 8750470820252580478, 6052441581794346388, 975213377784388727);
    Twice(11024028, 11990695188071604593, 6052441581794346388,
          1421424910165791713, 7794154378612285646, 7024233965844893672, 3934189245588198925);
    Twice(22048056, 1421424910165791713, 7024233965844893672,
          6228339190619220929, 109528747575534965, 6299545831803470544, 541256554218392304);
    AndOne(44096112, 6228339190619220929, 6299545831803470544,
           16578668510346473453, 2148780234551895562, 12527885022422691473, 0);
    Twice(44096113, 16578668510346473453, 12527885022422691473,
          17838062871268974953, 14899770305138856416, 16158969426447575502, 11259203905717422390);
    AndOne(88192226, 17838062871268974953, 16158969426447575502,
           12072819051574539893, 6154140894928690417, 15550288224006998839, 1);
    Twice(88192227, 12072819051574539893, 15550288224006998839,
          7905450090601615737, 7901283785889861532, 16128963318334014810, 10177178974138287666);
    Twice(176384454, 7905450090601615737, 16128963318334014810,
          12098251289419336497, 3387922599526010592, 14104782987305944804, 6912152844791584211);
    Twice(352768908, 12098251289419336497, 14104782987305944804,
          14043312387261841249, 7934608062923203985, 16812154926388356232, 9250586893887477135);
    AndOne(705537816, 14043312387261841249, 16812154926388356232,
           8739544785321771789, 4844950019876156616, 12408723239940645865, 1);
  }

  lemma DrawsByJump(n: nat, apow: nat, dsum: nat, seed: Int64)
    requires JumpIs(n, apow, dsum)
    ensures Iter64(n, seed) == Signed(seed * apow + dsum)
  {
    hide Power, Geometric, Iter64;
    Finish(n, seed, apow, dsum);
  }

  // ----- the 31-bit generator -----

  lemma Power750000()
    ensures Iter(750000, 1) == 406183614
  {
    hide Iter;
    Period.FirstPower();
    Period.Times(1, 16807, 1, 16807); Period.Times(2, 282475249, 2, 282475249);
    Period.Times(4, 984943658, 1, 16807); Period.Times(5, 1144108930, 5, 1144108930);
    Period.Times(10, 2007237709, 1, 16807); Period.Times(11, 823564440, 11, 823564440);
    Period.Times(22, 1474833169, 22, 1474833169); Period.Times(44, 1617819336, 1, 16807);
    Period.Times(45, 1399125485, 45, 1399125485); Period.Times(90, 1908194298, 1, 16807);
    Period.Times(91, 500782188, 91, 500782188); Period.Times(182, 971307217, 1, 16807);
    Period.Times(183, 1737195272, 183, 1737195272); Period.Times(366, 1971062967, 366, 1971062967);
    Period.Times(732, 594094833, 732, 594094833); Period.Times(1464, 816959685, 1464, 816959685);
    Period.Times(2928, 1295059761, 1, 16807); Period.Times(2929, 1322640782, 2929, 1322640782);
    Period.Times(5858, 78737401, 1, 16807); Period.Times(5859, 489572055, 5859, 489572055);
    Period.Times(11718, 1166365029, 11718, 1166365029); Period.Times(23436, 1150638197, 1, 16807);
    Period.Times(23437, 685935744, 23437, 685935744); Period.Times(46874, 1814784200, 1, 16807);
    Period.Times(46875, 367811059, 46875, 367811059); Period.Times(93750, 1499733656, 93750, 1499733656);
    Period.Times(187500, 1490387739, 187500, 1490387739); Period.Times(375000, 1002020165, 375000, 1002020165);
  }

  lemma Power1500000()
    ensures Iter(1500000, 1) == 554590007
  {
    hide Iter;
    Period.FirstPower();
    Power750000();
    Period.Times(750000, 406183614, 750000, 406183614);
  }

  lemma Power364094()
    ensures Iter(364094, 1) == 680787678
  {
    hide Iter;
    Period.FirstPower();
    Period.Times(1, 16807, 1, 16807); Period.Times(2, 282475249, 2, 282475249);
    Period.Times(4, 984943658, 1, 16807); Period.Times(5, 1144108930, 5, 1144108930);
    Period.Times(10, 2007237709, 1, 16807); Period.Times(11, 823564440, 11, 823564440);
    Period.Times(22, 1474833169, 22, 1474833169); Period.Times(44, 1617819336, 44, 1617819336);
    Period.Times(88, 1557810404, 88, 1557810404); Period.Times(176, 784559590, 1, 16807);
    Period.Times(177, 543436550, 177, 543436550); Period.Times(354, 1300601360, 1, 16807);
    Period.Times(355, 2118498354, 355, 2118498354); Period.Times(710, 67981921, 1, 16807);
    Period.Times(711, 110846043, 711, 110846043); Period.Times(1422, 382578173, 1422, 382578173);
    Period.Times(2844, 495053400, 2844, 495053400); Period.Times(5688, 2046976075, 5688, 2046976075);
    Period.Times(11376, 363912596, 1, 16807); Period.Times(11377, 245574316, 11377, 245574316);
    Period.Times(22754, 802252004, 1, 16807); Period.Times(22755, 1547095362, 22755, 1547095362);
    Period.Times(45510, 1859756937, 1, 16807); Period.Times(45511, 310358074, 45511, 310358074);
    Period.Times(91022, 2106078740, 1, 16807); Period.Times(91023, 2039913326, 91023, 2039913326);
    Period.Times(182046, 1925567061, 1, 16807); Period.Times(182047, 427033937, 182047, 427033937);
  }

  lemma Power47722762007()
    ensures Iter(47722762007, 1) == 174945540
  {
    hide Iter;
    Period.FirstPower();
    Power364094();
    Period.Times(364094, 680787678, 1, 16807); Period.Times(364095, 205632930, 364095, 205632930);
    Period.Times(728190, 1850666573, 1, 16807); Period.Times(728191, 2147432910, 728191, 2147432910);
    Period.Times(1456382, 426759522, 1, 16807); Period.Times(1456383, 2099388921, 1456383, 2099388921);
    Period.Times(2912766, 788191142, 2912766, 788191142); Period.Times(5825532, 522090039, 5825532, 522090039);
    Period.Times(11651064, 1158383699, 11651064, 1158383699); Period.Times(23302128, 1660467948, 1, 16807);
    Period.Times(23302129, 934809271, 23302129, 934809271); Period.Times(46604258, 1646902304, 1, 16807);
    Period.Times(46604259, 570297145, 46604259, 570297145); Period.Times(93208518, 10545327, 1, 16807);
    Period.Times(93208519, 1141651835, 93208519, 1141651835); Period.Times(186417038, 1822228310, 1, 16807);
    Period.Times(186417039, 926916303, 186417039, 926916303); Period.Times(372834078, 373225338, 372834078, 373225338);
    Period.Times(745668156, 1244817967, 745668156, 1244817967);
    Period.Times(1491336312, 2104054594, 1491336312, 2104054594);
    Period.Times(2982672624, 1444407884, 1, 16807); Period.Times(2982672625, 1008160700, 2982672625, 1008160700);
    Period.Times(5965345250, 684945679, 5965345250, 684945679); Period.Times(11930690500, 1303233233, 1, 16807);
    Period.Times(11930690501, 1255231278, 11930690501, 1255231278); Period.Times(23861381002, 626312726, 1, 16807);
    Period.Times(23861381003, 1620631935, 23861381003, 1620631935); Period.Times(47722762006, 374769113, 1, 16807);
  }

  lemma Power95445524015()
    ensures Iter(95445524015, 1) == 1327718221
  {
    hide Iter;
    Period.FirstPower();
    Power47722762007();
    Period.Times(47722762007, 174945540, 47722762007, 174945540); Period.Times(95445524014, 733880306, 1, 16807);
  }

  // ----- from the declared seed -----

  /** Both generators after 1500000 draws. */
  lemma After1500000()
    ensures Iter(1500000, DECLARED) == 1575709499
    ensures Iter64(1500000, DECLARED) == -7370245460366813201
  {
    hide Iter, Iter64, JumpIs;
    Power1500000();
    Period.IterScale(1500000, DECLARED);
    Jump1500000();
    DrawsByJump(1500000, 12121260589863539073, 6096875596184699168, DECLARED);
    SignedIs(851767375 * 12121260589863539073 + 6096875596184699168, 559691959, -7370245460366813201);
  }

  lemma SignedIs(x: int, q: int, y: Int64)
    requires x == q * 0x1_0000_0000_0000_0000 + y
    ensures Signed(x) == y
  {
    ModAddMultiple(y, q, WORD);
    SignedCongruent(x, y);
    SignedSame(y);
  }

  /** A value that leads to the lowest 64-bit one is skipped to, and how far it is from there. */
  lemma BeforeLowestReached()
    ensures Iter(95445524015, DECLARED) == 899296442
    ensures Iter64(705537817, 899296442) == BEFORE_LOWEST
  {
    hide Iter, Iter64, JumpIs;
    Power95445524015();
    Period.IterScale(95445524015, DECLARED);
    Jump705537817();
    DrawsByJump(705537817, 8739544785321771789, 12408723239940645865, 899296442);
    SignedIs(899296442 * 8739544785321771789 + 12408723239940645865, 426061180, -4654452103859546277);
  }
}

/**
  The first output of MT19937 under its default seed 5489 is 3499211612, as
  the reference implementation mt19937ar.c prints it. The seeded words
  x_1 .. x_397 are evaluated in steps of 20; the first twisted word needs
  x_0, x_1 and x_397.
*/
module Mt19937Vector {
  import opened Mt19937

  lemma SeededWordsTo20(seed: Word)
    requires seed == 5489
    ensures Seeded(seed, 1) == 1301868182
    ensures Seeded(seed, 20) == 2982310801
  {
    assert Seeded(seed, 1) == 1301868182;
    assert Seeded(seed, 2) == 2938499221;
    assert Seeded(seed, 3) == 2950281878;
    assert Seeded(seed, 4) == 1875628136;
    assert Seeded(seed, 5) == 751856242;
    assert Seeded(seed, 6) == 944701696;
    assert Seeded(seed, 7) == 2243192071;
    assert Seeded(seed, 8) == 694061057;
    assert Seeded(seed, 9) == 219885934;
    assert Seeded(seed, 10) == 2066767472;
    assert Seeded(seed, 11) == 3182869408;
    assert Seeded(seed, 12) == 485472502;
    assert Seeded(seed, 13) == 2336857883;
    assert Seeded(seed, 14) == 1071588843;
    assert Seeded(seed, 15) == 3418470598;
    assert Seeded(seed, 16) == 951210697;
    assert Seeded(seed, 17) == 3693558366;
    assert Seeded(seed, 18) == 2923482051;
    assert Seeded(seed, 19) == 1793174584;
  }

  lemma SeededWordsTo40(seed: Word)
    requires seed == 5489
    ensures Seeded(seed, 40) == 1603307207
  {
    SeededWordsTo20(seed);
    assert Seeded(seed, 21) == 1586906132;
    assert Seeded(seed, 22) == 1951078751;
    assert Seeded(seed, 23) == 1808158765;
    assert Seeded(seed, 24) == 1733897588;
    assert Seeded(seed, 25) == 431328322;
    assert Seeded(seed, 26) == 4202539044;
    assert Seeded(seed, 27) == 530658942;
    assert Seeded(seed, 28) == 1714810322;
    assert Seeded(seed, 29) == 3025256284;
    assert Seeded(seed, 30) == 3342585396;
    assert Seeded(seed, 31) == 1937033938;
    assert Seeded(seed, 32) == 2640572511;
    assert Seeded(seed, 33) == 1654299090;
    assert Seeded(seed, 34) == 3692403553;
    assert Seeded(seed, 35) == 4233871309;
    assert Seeded(seed, 36) == 3497650794;
    assert Seeded(seed, 37) == 862629010;
    assert Seeded(seed, 38) == 2943236032;
    assert Seeded(seed, 39) == 2426458545;
  }

  lemma SeededWordsTo60(seed: Word)
    requires seed == 5489
    ensures Seeded(seed, 60) == 1339167484
  {
    SeededWordsTo40(seed);
    assert Seeded(seed, 41) == 1133453895;
    assert Seeded(seed, 42) == 3099196360;
    assert Seeded(seed, 43) == 2208657629;
    assert Seeded(seed, 44) == 2747653927;
    assert Seeded(seed, 45) == 931059398;
    assert Seeded(seed, 46) == 761573964;
    assert Seeded(seed, 47) == 3157853227;
    assert Seeded(seed, 48) == 785880413;
    assert Seeded(seed, 49) == 730313442;
    assert Seeded(seed, 50) == 124945756;
    assert Seeded(seed, 51) == 2937117055;
    assert Seeded(seed, 52) == 3295982469;
    assert Seeded(seed, 53) == 1724353043;
    assert Seeded(seed, 54) == 3021675344;
    assert Seeded(seed, 55) == 3884886417;
    assert Seeded(seed, 56) == 4010150098;
    assert Seeded(seed, 57) == 4056961966;
    assert Seeded(seed, 58) == 699635835;
    assert Seeded(seed, 59) == 2681338818;
  }

  lemma SeededWordsTo80(seed: Word)
    requires seed == 5489
    ensures Seeded(seed, 80) == 624778151
  {
    SeededWordsTo60(seed);
    assert Seeded(seed, 61) == 720757518;
    assert Seeded(seed, 62) == 2800161476;
    assert Seeded(seed, 63) == 2376097373;
    assert Seeded(seed, 64) == 1532957371;
    assert Seeded(seed, 65) == 3902664099;
    assert Seeded(seed, 66) == 1238982754;
    assert Seeded(seed, 67) == 3725394514;
    assert Seeded(seed, 68) == 3449176889;
    assert Seeded(seed, 69) == 3570962471;
    assert Seeded(seed, 70) == 4287636090;
    assert Seeded(seed, 71) == 4087307012;
    assert Seeded(seed, 72) == 3603343627;
    assert Seeded(seed, 73) == 202242161;
    assert Seeded(seed, 74) == 2995682783;
    assert Seeded(seed, 75) == 1620962684;
    assert Seeded(seed, 76) == 3704723357;
    assert Seeded(seed, 77) == 371613603;
    assert Seeded(seed, 78) == 2814834333;
    assert Seeded(seed, 79) == 2111005706;
  }

  lemma SeededWordsTo100(seed: Word)
    requires seed == 5489
    ensures Seeded(seed, 100) == 1834958505
  {
    SeededWordsTo80(seed);
    assert Seeded(seed, 81) == 2094172212;
    assert Seeded(seed, 82) == 4284947003;
    assert Seeded(seed, 83) == 1211977835;
    assert Seeded(seed, 84) == 991917094;
    assert Seeded(seed, 85) == 1570449747;
    assert Seeded(seed, 86) == 2962370480;
    assert Seeded(seed, 87) == 1259410321;
    assert Seeded(seed, 88) == 170182696;
    assert Seeded(seed, 89) == 146300961;
    assert Seeded(seed, 90) == 2836829791;
    assert Seeded(seed, 91) == 619452428;
    assert Seeded(seed, 92) == 2723670296;
    assert Seeded(seed, 93) == 1881399711;
    assert Seeded(seed, 94) == 1161269684;
    assert Seeded(seed, 95) == 1675188680;
    assert Seeded(seed, 96) == 4132175277;
    assert Seeded(seed, 97) == 780088327;
    assert Seeded(seed, 98) == 3409462821;
    assert Seeded(seed, 99) == 1036518241;
  }

  lemma SeededWordsTo120(seed: Word)
    requires seed == 5489
    ensures Seeded(seed, 120) == 2502746480
  {
    SeededWordsTo100(seed);
    assert Seeded(seed, 101) == 3048448173;
    assert Seeded(seed, 102) == 161811569;
    assert Seeded(seed, 103) == 618488316;
    assert Seeded(seed, 104) == 44795092;
    assert Seeded(seed, 105) == 3918322701;
    assert Seeded(seed, 106) == 1924681712;
    assert Seeded(seed, 107) == 3239478144;
    assert Seeded(seed, 108) == 383254043;
    assert Seeded(seed, 109) == 4042306580;
    assert Seeded(seed, 110) == 2146983041;
    assert Seeded(seed, 111) == 3992780527;
    assert Seeded(seed, 112) == 3518029708;
    assert Seeded(seed, 113) == 3545545436;
    assert Seeded(seed, 114) == 3901231469;
    assert Seeded(seed, 115) == 1896136409;
    assert Seeded(seed, 116) == 2028528556;
    assert Seeded(seed, 117) == 2339662006;
    assert Seeded(seed, 118) == 501326714;
    assert Seeded(seed, 119) == 2060962201;
  }

  lemma SeededWordsTo140(seed: Word)
    requires seed == 5489
    ensures Seeded(seed, 140) == 1285330465
  {
    SeededWordsTo120(seed);
    assert Seeded(seed, 121) == 561575027;
    assert Seeded(seed, 122) == 581893337;
    assert Seeded(seed, 123) == 3393774360;
    assert Seeded(seed, 124) == 1778912547;
    assert Seeded(seed, 125) == 3626131687;
    assert Seeded(seed, 126) == 2175155826;
    assert Seeded(seed, 127) == 319853231;
    assert Seeded(seed, 128) == 986875531;
    assert Seeded(seed, 129) == 819755096;
    assert Seeded(seed, 130) == 2915734330;
    assert Seeded(seed, 131) == 2688355739;
    assert Seeded(seed, 132) == 3482074849;
    assert Seeded(seed, 133) == 2736559;
    assert Seeded(seed, 134) == 2296975761;
    assert Seeded(seed, 135) == 1029741190;
    assert Seeded(seed, 136) == 2876812646;
    assert Seeded(seed, 137) == 690154749;
    assert Seeded(seed, 138) == 579200347;
    assert Seeded(seed, 139) == 4027461746;
  }

  lemma SeededWordsTo160(seed: Word)
    requires seed == 5489
    ensures Seeded(seed, 160) == 3955548058
  {
    SeededWordsTo140(seed);
    assert Seeded(seed, 141) == 2701024045;
    assert Seeded(seed, 142) == 4117700889;
    assert Seeded(seed, 143) == 759495121;
    assert Seeded(seed, 144) == 3332270341;
    assert Seeded(seed, 145) == 2313004527;
    assert Seeded(seed, 146) == 2277067795;
    assert Seeded(seed, 147) == 4131855432;
    assert Seeded(seed, 148) == 2722057515;
    assert Seeded(seed, 149) == 1264804546;
    assert Seeded(seed, 150) == 3848622725;
    assert Seeded(seed, 151) == 2211267957;
    assert Seeded(seed, 152) == 4100593547;
    assert Seeded(seed, 153) == 959123777;
    assert Seeded(seed, 154) == 2130745407;
    assert Seeded(seed, 155) == 3194437393;
    assert Seeded(seed, 156) == 486673947;
    assert Seeded(seed, 157) == 1377371204;
    assert Seeded(seed, 158) == 17472727;
    assert Seeded(seed, 159) == 352317554;
  }

  lemma SeededWordsTo180(seed: Word)
    requires seed == 5489
    ensures Seeded(seed, 180) == 2200142389
  {
    SeededWordsTo160(seed);
    assert Seeded(seed, 161) == 159652094;
    assert Seeded(seed, 162) == 1232063192;
    assert Seeded(seed, 163) == 3835177280;
    assert Seeded(seed, 164) == 49423123;
    assert Seeded(seed, 165) == 3083993636;
    assert Seeded(seed, 166) == 733092;
    assert Seeded(seed, 167) == 2120519771;
    assert Seeded(seed, 168) == 2573409834;
    assert Seeded(seed, 169) == 1112952433;
    assert Seeded(seed, 170) == 3239502554;
    assert Seeded(seed, 171) == 761045320;
    assert Seeded(seed, 172) == 1087580692;
    assert Seeded(seed, 173) == 2540165110;
    assert Seeded(seed, 174) == 641058802;
    assert Seeded(seed, 175) == 1792435497;
    assert Seeded(seed, 176) == 2261799288;
    assert Seeded(seed, 177) == 1579184083;
    assert Seeded(seed, 178) == 627146892;
    assert Seeded(seed, 179) == 2165744623;
  }

  lemma SeededWordsTo200(seed: Word)
    requires seed == 5489
    ensures Seeded(seed, 200) == 123512128
  {
    SeededWordsTo180(seed);
    assert Seeded(seed, 181) == 2167590760;
    assert Seeded(seed, 182) == 2381418376;
    assert Seeded(seed, 183) == 1793358889;
    assert Seeded(seed, 184) == 3081659520;
    assert Seeded(seed, 185) == 1663384067;
    assert Seeded(seed, 186) == 2009658756;
    assert Seeded(seed, 187) == 2689600308;
    assert Seeded(seed, 188) == 739136266;
    assert Seeded(seed, 189) == 2304581039;
    assert Seeded(seed, 190) == 3529067263;
    assert Seeded(seed, 191) == 591360555;
    assert Seeded(seed, 192) == 525209271;
    assert Seeded(seed, 193) == 3131882996;
    assert Seeded(seed, 194) == 294230224;
    assert Seeded(seed, 195) == 2076220115;
    assert Seeded(seed, 196) == 3113580446;
    assert Seeded(seed, 197) == 1245621585;
    assert Seeded(seed, 198) == 1386885462;
    assert Seeded(seed, 199) == 3203270426;
  }

  lemma SeededWordsTo220(seed: Word)
    requires seed == 5489
    ensures Seeded(seed, 220) == 3878728600
  {
    SeededWordsTo200(seed);
    assert Seeded(seed, 201) == 12350217;
    assert Seeded(seed, 202) == 354956375;
    assert Seeded(seed, 203) == 4282398238;
    assert Seeded(seed, 204) == 3356876605;
    assert Seeded(seed, 205) == 3888857667;
    assert Seeded(seed, 206) == 157639694;
    assert Seeded(seed, 207) == 2616064085;
    assert Seeded(seed, 208) == 1563068963;
    assert Seeded(seed, 209) == 2762125883;
    assert Seeded(seed, 210) == 4045394511;
    assert Seeded(seed, 211) == 4180452559;
    assert Seeded(seed, 212) == 3294769488;
    assert Seeded(seed, 213) == 1684529556;
    assert Seeded(seed, 214) == 1002945951;
    assert Seeded(seed, 215) == 3181438866;
    assert Seeded(seed, 216) == 22506664;
    assert Seeded(seed, 217) == 691783457;
    assert Seeded(seed, 218) == 2685221343;
    assert Seeded(seed, 219) == 171579916;
  }

  lemma SeededWordsTo240(seed: Word)
    requires seed == 5489
    ensures Seeded(seed, 240) == 1678403446
  {
    SeededWordsTo220(seed);
    assert Seeded(seed, 221) == 2475806724;
    assert Seeded(seed, 222) == 2030324028;
    assert Seeded(seed, 223) == 3331164912;
    assert Seeded(seed, 224) == 1708711359;
    assert Seeded(seed, 225) == 1970023127;
    assert Seeded(seed, 226) == 2859691344;
    assert Seeded(seed, 227) == 2588476477;
    assert Seeded(seed, 228) == 2748146879;
    assert Seeded(seed, 229) == 136111222;
    assert Seeded(seed, 230) == 2967685492;
    assert Seeded(seed, 231) == 909517429;
    assert Seeded(seed, 232) == 2835297809;
    assert Seeded(seed, 233) == 3206906216;
    assert Seeded(seed, 234) == 3186870716;
    assert Seeded(seed, 235) == 341264097;
    assert Seeded(seed, 236) == 2542035121;
    assert Seeded(seed, 237) == 3353277068;
    assert Seeded(seed, 238) == 548223577;
    assert Seeded(seed, 239) == 3170936588;
  }

  lemma SeededWordsTo260(seed: Word)
    requires seed == 5489
    ensures Seeded(seed, 260) == 3048728353
  {
    SeededWordsTo240(seed);
    assert Seeded(seed, 241) == 297435620;
    assert Seeded(seed, 242) == 2337555430;
    assert Seeded(seed, 243) == 466603495;
    assert Seeded(seed, 244) == 1132321815;
    assert Seeded(seed, 245) == 1208589219;
    assert Seeded(seed, 246) == 696392160;
    assert Seeded(seed, 247) == 894244439;
    assert Seeded(seed, 248) == 2562678859;
    assert Seeded(seed, 249) == 470224582;
    assert Seeded(seed, 250) == 3306867480;
    assert Seeded(seed, 251) == 201364898;
    assert Seeded(seed, 252) == 2075966438;
    assert Seeded(seed, 253) == 1767227936;
    assert Seeded(seed, 254) == 2929737987;
    assert Seeded(seed, 255) == 3674877796;
    assert Seeded(seed, 256) == 2654196643;
    assert Seeded(seed, 257) == 3692734598;
    assert Seeded(seed, 258) == 3528895099;
    assert Seeded(seed, 259) == 2796780123;
  }

  lemma SeededWordsTo280(seed: Word)
    requires seed == 5489
    ensures Seeded(seed, 280) == 3106564952
  {
    SeededWordsTo260(seed);
    assert Seeded(seed, 261) == 842329300;
    assert Seeded(seed, 262) == 191554730;
    assert Seeded(seed, 263) == 2922459673;
    assert Seeded(seed, 264) == 3489020079;
    assert Seeded(seed, 265) == 3979110629;
    assert Seeded(seed, 266) == 1022523848;
    assert Seeded(seed, 267) == 2202932467;
    assert Seeded(seed, 268) == 3583655201;
    assert Seeded(seed, 269) == 3565113719;
    assert Seeded(seed, 270) == 587085778;
    assert Seeded(seed, 271) == 4176046313;
    assert Seeded(seed, 272) == 3013713762;
    assert Seeded(seed, 273) == 950944241;
    assert Seeded(seed, 274) == 396426791;
    assert Seeded(seed, 275) == 3784844662;
    assert Seeded(seed, 276) == 3477431613;
    assert Seeded(seed, 277) == 3594592395;
    assert Seeded(seed, 278) == 2782043838;
    assert Seeded(seed, 279) == 3392093507;
  }

  lemma SeededWordsTo300(seed: Word)
    requires seed == 5489
    ensures Seeded(seed, 300) == 423621996
  {
    SeededWordsTo280(seed);
    assert Seeded(seed, 281) == 2829419931;
    assert Seeded(seed, 282) == 1358665591;
    assert Seeded(seed, 283) == 2206918825;
    assert Seeded(seed, 284) == 3170783123;
    assert Seeded(seed, 285) == 31522386;
    assert Seeded(seed, 286) == 2988194168;
    assert Seeded(seed, 287) == 1782249537;
    assert Seeded(seed, 288) == 1105080928;
    assert Seeded(seed, 289) == 843500134;
    assert Seeded(seed, 290) == 1225290080;
    assert Seeded(seed, 291) == 1521001832;
    assert Seeded(seed, 292) == 3605886097;
    assert Seeded(seed, 293) == 2802786495;
    assert Seeded(seed, 294) == 2728923319;
    assert Seeded(seed, 295) == 3996284304;
    assert Seeded(seed, 296) == 903417639;
    assert Seeded(seed, 297) == 1171249804;
    assert Seeded(seed, 298) == 1020374987;
    assert Seeded(seed, 299) == 2824535874;
  }

  lemma SeededWordsTo320(seed: Word)
    requires seed == 5489
    ensures Seeded(seed, 320) == 2962920654
  {
    SeededWordsTo300(seed);
    assert Seeded(seed, 301) == 1988534473;
    assert Seeded(seed, 302) == 2493544470;
    assert Seeded(seed, 303) == 1008604435;
    assert Seeded(seed, 304) == 1756003503;
    assert Seeded(seed, 305) == 1488867287;
    assert Seeded(seed, 306) == 1386808992;
    assert Seeded(seed, 307) == 732088248;
    assert Seeded(seed, 308) == 1780630732;
    assert Seeded(seed, 309) == 2482101014;
    assert Seeded(seed, 310) == 976561178;
    assert Seeded(seed, 311) == 1543448953;
    assert Seeded(seed, 312) == 2602866064;
    assert Seeded(seed, 313) == 2021139923;
    assert Seeded(seed, 314) == 1952599828;
    assert Seeded(seed, 315) == 2360242564;
    assert Seeded(seed, 316) == 2117959962;
    assert Seeded(seed, 317) == 2753061860;
    assert Seeded(seed, 318) == 2388623612;
    assert Seeded(seed, 319) == 4138193781;
  }

  lemma SeededWordsTo340(seed: Word)
    requires seed == 5489
    ensures Seeded(seed, 340) == 607905174
  {
    SeededWordsTo320(seed);
    assert Seeded(seed, 321) == 2284970429;
    assert Seeded(seed, 322) == 766920861;
    assert Seeded(seed, 323) == 3457264692;
    assert Seeded(seed, 324) == 2879611383;
    assert Seeded(seed, 325) == 815055854;
    assert Seeded(seed, 326) == 2332929068;
    assert Seeded(seed, 327) == 1254853997;
    assert Seeded(seed, 328) == 3740375268;
    assert Seeded(seed, 329) == 3799380844;
    assert Seeded(seed, 330) == 4091048725;
    assert Seeded(seed, 331) == 2006331129;
    assert Seeded(seed, 332) == 1982546212;
    assert Seeded(seed, 333) == 686850534;
    assert Seeded(seed, 334) == 1907447564;
    assert Seeded(seed, 335) == 2682801776;
    assert Seeded(seed, 336) == 2780821066;
    assert Seeded(seed, 337) == 998290361;
    assert Seeded(seed, 338) == 1342433871;
    assert Seeded(seed, 339) == 4195430425;
  }

  lemma SeededWordsTo360(seed: Word)
    requires seed == 5489
    ensures Seeded(seed, 360) == 4238214053
  {
    SeededWordsTo340(seed);
    assert Seeded(seed, 341) == 3902331779;
    assert Seeded(seed, 342) == 2454067926;
    assert Seeded(seed, 343) == 1708133115;
    assert Seeded(seed, 344) == 1170874362;
    assert Seeded(seed, 345) == 2008609376;
    assert Seeded(seed, 346) == 3260320415;
    assert Seeded(seed, 347) == 2211196135;
    assert Seeded(seed, 348) == 433538229;
    assert Seeded(seed, 349) == 2728786374;
    assert Seeded(seed, 350) == 2189520818;
    assert Seeded(seed, 351) == 262554063;
    assert Seeded(seed, 352) == 1182318347;
    assert Seeded(seed, 353) == 3710237267;
    assert Seeded(seed, 354) == 1221022450;
    assert Seeded(seed, 355) == 715966018;
    assert Seeded(seed, 356) == 2417068910;
    assert Seeded(seed, 357) == 2591870721;
    assert Seeded(seed, 358) == 2870691989;
    assert Seeded(seed, 359) == 3418190842;
  }

  lemma SeededWordsTo380(seed: Word)
    requires seed == 5489
    ensures Seeded(seed, 380) == 928171837
  {
    SeededWordsTo360(seed);
    assert Seeded(seed, 361) == 1540704231;
    assert Seeded(seed, 362) == 1575580968;
    assert Seeded(seed, 363) == 2095917976;
    assert Seeded(seed, 364) == 4078310857;
    assert Seeded(seed, 365) == 2313532447;
    assert Seeded(seed, 366) == 2110690783;
    assert Seeded(seed, 367) == 4056346629;
    assert Seeded(seed, 368) == 4061784526;
    assert Seeded(seed, 369) == 1123218514;
    assert Seeded(seed, 370) == 551538993;
    assert Seeded(seed, 371) == 597148360;
    assert Seeded(seed, 372) == 4120175196;
    assert Seeded(seed, 373) == 3581618160;
    assert Seeded(seed, 374) == 3181170517;
    assert Seeded(seed, 375) == 422862282;
    assert Seeded(seed, 376) == 3227524138;
    assert Seeded(seed, 377) == 1713114790;
    assert Seeded(seed, 378) == 662317149;
    assert Seeded(seed, 379) == 1230418732;
  }

  lemma SeededWordsTo397(seed: Word)
    requires seed == 5489
    ensures Seeded(seed, 397) == 3183906156
  {
    SeededWordsTo380(seed);
    assert Seeded(seed, 381) == 1324564878;
    assert Seeded(seed, 382) == 1928816105;
    assert Seeded(seed, 383) == 1786535431;
    assert Seeded(seed, 384) == 2878099422;
    assert Seeded(seed, 385) == 3290185549;
    assert Seeded(seed, 386) == 539474248;
    assert Seeded(seed, 387) == 1657512683;
    assert Seeded(seed, 388) == 552370646;
    assert Seeded(seed, 389) == 1671741683;
    assert Seeded(seed, 390) == 3655312128;
    assert Seeded(seed, 391) == 1552739510;
    assert Seeded(seed, 392) == 2605208763;
    assert Seeded(seed, 393) == 1441755014;
    assert Seeded(seed, 394) == 181878989;
    assert Seeded(seed, 395) == 3124053868;
    assert Seeded(seed, 396) == 1447103986;
  }

  /** The first word of the twisted state, tempered. */
  lemma FirstOutput(seed: Word)
    requires seed == 5489
    ensures Temper(X(seed, N)) == 3499211612
  {
    SeededWordsTo20(seed);
    SeededWordsTo397(seed);
    var s := InitState(seed);
    assert s[0] == 5489 && s[1] == 1301868182 && s[M] == 3183906156;
    assert X(seed, N) == TwistWord(s[0], s[1], s[M]);
  }
}

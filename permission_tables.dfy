/** The permission-group ID lists of the two policy templates in
    cmd/add.go, one list per template and resource, in the order the source
    lists them. Each ID is held as the 128-bit number its 32 hexadecimal
    digits spell (HexIds.HexId gives the string back). The lemmas establish,
    a few entries at a time, that every list is strictly ascending and that
    the read-only and write-everything lists for the same resource share no
    ID; ReadOnlyWellFormed, WriteEverythingWellFormed and
    ReadOnlyApartFromWriteEverything state these facts for whole lists. */
module PermissionTables {
  import opened HexIds

  /** The six lists: read-only or write-everything, for the account wildcard,
      the zone wildcard or the user resource. */
  datatype Table =
    | ReadOnlyAccount | ReadOnlyZone | ReadOnlyUser
    | WriteEverythingAccount | WriteEverythingZone | WriteEverythingUser

  /** The IDs of one list, as numbers, in the order the source lists them. */
  function Ids(t: Table): (ids: seq<nat>)
    ensures t == ReadOnlyAccount ==> |ids| == 91
    ensures t == ReadOnlyZone ==> |ids| == 35
    ensures t == ReadOnlyUser ==> |ids| == 3
    ensures t == WriteEverythingAccount ==> |ids| == 97
    ensures t == WriteEverythingZone ==> |ids| == 39
    ensures t == WriteEverythingUser ==> |ids| == 2
  {
    match t
    // cmd/add.go:210-300
    case ReadOnlyAccount =>
      [0x02b71f12bb0748e9af8126494e181342, 0x050531528b044d58bbb71666fef7c07c, 0x05880cd1bdc24d8bae0be2136972816b, 0x07bea2220b2343fa9fae15656c0d8e88, 0x08e61dabe81a422dab0dea6fdef1a98a, 0x0cf6473ad41449e7b7b743d14fc20c60, 0x0f4841f80adb4bada5a09493300e7f8d, 0x1047880d37b649b49db4a504a245896f] +
      [0x192192df92ee43ac90f2aeeffce67e35, 0x1a71c399035b4950a1bd1466bbe4f420, 0x1b1ea24cf0904d33903f0cc7e54e280f, 0x1b600d9d8062443e986a973f097e728a, 0x2072033d694d415a936eaeb94e6405b8, 0x20e5ea084b2f491c86b8d8d90abff905, 0x211a4c0feb3e43b3a2d41f1443a433e7, 0x212c9ff247b9406d990c017482afb3a5] +
      [0x26bc23f853634eb4bff59983b9064fde, 0x27beb7f8333b41e2b946f0e23cd8091e, 0x29eefa0805f94fdfae2b058b5b52f319, 0x319f5059d33a410da0fac4d35a716157, 0x3245da1cf36c45c3847bb9b483c62f97, 0x3a46c728a0a040d5a65cd8e2f3bc6935, 0x3b376e0aa52c41cbb6afc9cab945afa8, 0x3d85e9514f944bb4912c5871d92e5af5] +
      [0x3f376c8e6f764a938b848bd01c8995c4, 0x429a068902904c5a9ed9fc267c67da9a, 0x4657621393f94f83b8ef94adba382e48, 0x4ec32dfcb35641c5bb32d5ef1ab963b4, 0x4f1071168de8466e9808de86febfc516, 0x4f3196a5c95747b6ad82e34e1d0a694f, 0x517b21aee92c4d89936c976ba6e4be55, 0x51be404b56244056868226263a44a632] +
      [0x5272e56105d04b5897466995b9bd4643, 0x56b2af4817c84ad99187911dc3986c23, 0x58abbad6d2ce40abb2594fbe932a2e0e, 0x595409c54a24444b80a495620b2d614c, 0x5bdbde7e76144204a244274eac3eb0eb, 0x5d613a610b294788a29572aaac2f254d, 0x5d78fd7895974fd0bdbbbb079482721b, 0x5f48a472240a4b489a21d43bd19a06e1] +
      [0x6a315a56f18441e59ed03352369ae956, 0x6b60a5a87cae475da7e76e77e4209dd5, 0x6ced5d0d69b1422396909a62c38ab41b, 0x74c654eb4aac40e28d6c6caa4c5aeb3d, 0x7b32a91ece3140d4b3c2c56f23fc8e35, 0x7b7216b327b04b8fbc8f524e1f9b7531, 0x7cf72faf220841aabcfdfab81c43c4f6, 0x7ea222f6d5064cfa89ea366d7c1fee89] +
      [0x82e64a83756745bbbb1c9c2701bf816b, 0x853643ed57244ed1a05a7c024af9ab5a, 0x8b47d2786a534c08a1f94ee8f9f599ef, 0x8e31f574901c42e8ad89140b28d42112, 0x91f7ce32fa614d73b7e1fc8f0e78582b, 0x945315185a8f40518bf3e9e6d0bee126, 0x967ecf860a244dd1911a0331a0af582a, 0x99ff99e4e30247a99d3777a8c4c18541] +
      [0x9ade9cfc8f8949bcb2371be2f0ec8db1, 0x9c88f9c5bce24ce7af9a958ba9c504db, 0x9d24387c6e8544e2bc4024a03991339f, 0xa2431ca73b7d41f99c53303027392586, 0xa2b55cd504d44ef18b7ba6a7f2b8fbb1, 0xa7a233f9604845c787d4c8c39ac09c21, 0xa9a99455bf3245f6a5a244f909d74830, 0xaf1c363c35ba45b9a8c682ae50eb3f99] +
      [0xb05b28e839c54467a7d6cba5d3abb5a3, 0xb415b70a4fd1412886f164451f20405c, 0xb4992e1108244f5d8bfbd5744320c2e1, 0xb89a480218d04ceb98b4fe57ca29dc1f, 0xc1fde68c7bcc44588cbb6ddbc16d6480, 0xc49f8d15f9f44885a544d945ef5aa6ae, 0xc4a30cd58c5d42619c86a3c36c441e2d, 0xc57ea647ef654b47bc8944fa739b570d] +
      [0xc8fed203ed3043cba015a93ad1616f1f, 0xcab5202d07ef47beae788e6bc95cb6fe, 0xd8e12db741544d1586ec1d6f5d3c7786, 0xdbc512b354774852af2b5a5f4ba3d470, 0xde21485a24744b76a004aa153898f7fe, 0xde7a688cc47d43bd9ea700b467a09c96, 0xdf1577df30ee46268f9470952d7b0cdf, 0xe199d584e69344eba202452019deafe3] +
      [0xe247aedd66bd41cc9193af0213416666, 0xe763fae6ee95443b8f56f19213c5f2a5, 0xe9a975f628014f1d85b723993116f7d5, 0xeb258a38ea634c86a0c89da6b27cb6b6, 0xeb56a6953c034b9d97dd838155666f06, 0xeeffa4d16812430cb4a0ae9e7f46fc24, 0xefea2ab8357b47888938f101ae5e053f, 0xf3604047d46144d2a3e9cf4ac99d7f16] +
      [0xfac65912d42144aa86b7dd33281bf79e, 0xfb39996ee9044d2a8725921e02744b39, 0xfd7f886c75a244389e892c4c3c068292]
    // cmd/add.go:307-341
    case ReadOnlyZone =>
      [0x07bea2220b2343fa9fae15656c0d8e88, 0x1047880d37b649b49db4a504a245896f, 0x1b1ea24cf0904d33903f0cc7e54e280f, 0x1b600d9d8062443e986a973f097e728a, 0x2072033d694d415a936eaeb94e6405b8, 0x20e5ea084b2f491c86b8d8d90abff905, 0x211a4c0feb3e43b3a2d41f1443a433e7, 0x319f5059d33a410da0fac4d35a716157] +
      [0x3245da1cf36c45c3847bb9b483c62f97, 0x4ec32dfcb35641c5bb32d5ef1ab963b4, 0x517b21aee92c4d89936c976ba6e4be55, 0x51be404b56244056868226263a44a632, 0x5bdbde7e76144204a244274eac3eb0eb, 0x6ced5d0d69b1422396909a62c38ab41b, 0x74c654eb4aac40e28d6c6caa4c5aeb3d, 0x7b32a91ece3140d4b3c2c56f23fc8e35] +
      [0x7b7216b327b04b8fbc8f524e1f9b7531, 0x82e64a83756745bbbb1c9c2701bf816b, 0x853643ed57244ed1a05a7c024af9ab5a, 0x8e31f574901c42e8ad89140b28d42112, 0x945315185a8f40518bf3e9e6d0bee126, 0x9c88f9c5bce24ce7af9a958ba9c504db, 0xa2431ca73b7d41f99c53303027392586, 0xa2b55cd504d44ef18b7ba6a7f2b8fbb1] +
      [0xb415b70a4fd1412886f164451f20405c, 0xc49f8d15f9f44885a544d945ef5aa6ae, 0xc4a30cd58c5d42619c86a3c36c441e2d, 0xc8fed203ed3043cba015a93ad1616f1f, 0xcab5202d07ef47beae788e6bc95cb6fe, 0xd8e12db741544d1586ec1d6f5d3c7786, 0xdbc512b354774852af2b5a5f4ba3d470, 0xe199d584e69344eba202452019deafe3] +
      [0xe9a975f628014f1d85b723993116f7d5, 0xeb258a38ea634c86a0c89da6b27cb6b6, 0xfac65912d42144aa86b7dd33281bf79e]
    // cmd/add.go:348-350
    case ReadOnlyUser =>
      [0x0cc3a61731504c89b99ec1be78b77aa0, 0x3518d0f75557482e952c6762d3e64903, 0x8acbe5bb0d54464ab867149d7f7cf8ac]
    // cmd/add.go:360-456
    case WriteEverythingAccount =>
      [0x06f0526e6e464647bd61b63c54935235, 0x094547ab6e77498c8c4dfa87fadd5c51, 0x09b2857d1c31407795e75e3fed8617a1, 0x09c77baecb6341a2b1ca2c62b658d290, 0x0ac90a90249747bca6b047d97f0803e9, 0x0bc09a3cd4b54605990df4e307f138e1, 0x0fd9d56bc2da43ad8ea22d610dd8cab1, 0x18555e39c5ba40d284dde87eda845a90] +
      [0x1af1fa2adc104452b74a9a3364202f20, 0x1e13c5124ca64b72b1969a67e8829049, 0x2002629aaff0454085bf5a201ed70a72, 0x235eac9bb64942b49cb805cc851cb000, 0x24fc124dc8254e0db468e60bf410c800, 0x28f4b596e7d643029c524985477ae49a, 0x29d3afbfd4054af9accdd1118815ed05, 0x2a400bcb29154daab509fe07e3facab0] +
      [0x2ae23e4939d54074b7d252d27ce75a77, 0x2edbf20661fd4661b0fe10e9e12f485c, 0x2eee71c9364c4cacaf469e8370f09056, 0x2fc1072ee6b743828db668fcb3f9dee7, 0x3030687196b94b638145a3953da2b699, 0x3a1e1ef09dd34271bb44fc4c6a419952, 0x3b94c49258ec4573b06d51d99b6416c0, 0x3e0b5820118e47f3922f7c989e673882] +
      [0x43137f8d07884d3198dc0ee77ca6e79b, 0x440e6958bcc947329f8d56328d7322ce, 0x4736c02a9f224c8196ae5b127beae78c, 0x4755a26eedb94da69e1066d98aa820be, 0x4e5fd8ac327b4a358e48c66fcbeb856d, 0x4ea7d6421801452dbf07cef853a5ef39, 0x56907406c3d548ed902070ec4df0e328, 0x5bc3f8b21c554832afc660159ab75fa4] +
      [0x5ea6da42edb34811a78d1b007557c0ca, 0x6134079371904d8ebd77931c8ca07e50, 0x618ec6c64a3a42f8b08bdcb147ded4e4, 0x61ddc58f1da14f95b33b41213360cbeb, 0x6c80e02421494afc9ae14414ed442632, 0x6c9d1cfcfc6840a987d1b5bfb880a841, 0x6d7f2f5f5b1d4a0e9081fdc98d432fd1, 0x6db4e222e21248ac96a3f4c2a81e3b41] +
      [0x7121a0c7e9ed46e3829f9cca2bb572aa, 0x714f9c13a5684c2885a793f5edb36f59, 0x74e1036f577a48528b78d2413b40538d, 0x755c05aa014b4f9ab263aa80b8167bd8, 0x79b3ec0d10ce4148a8f8bdc0cc5f97f2, 0x7a4c3574054a4d0ba7c692893ba8bdd4, 0x7c81856725af47ce89a790d5fb36f362, 0x865ebd55bc6d4b109de6813eccfefd13] +
      [0x87065285ab38463481e72815eefd18c3, 0x89bb8c37d46042e98b84560eaaa6379f, 0x89d5bf002389496e9994b8c30608b5d0, 0x8a9d35a7c8504208ad5c3e8d58e6162d, 0x8bd1dac84d3d43e7bfb43145f010a15c, 0x8d28297797f24fb8a0c332fe0866ec89, 0x8e6ed1ef6e864ad0ae477ceffa5aa5eb, 0x910b6ecca1c5411bb894e787362d1312] +
      [0x9110d9dd749e464fb9f3961a2064efc5, 0x92209474242d459690e2cdb1985eaa6c, 0x92b8234e99f64e05bbbc59e1dc0f76b6, 0x92c8dcd551cc42a6a57a54e8f8d3f3e3, 0x959972745952452f8be2452be8cbb9f2, 0x96163bd1b0784f62b3e44ed8c2ab1eb6, 0x9ff81cbbe65c400b97d92c3c1033cab6, 0xa1a6298e52584c8fb6313760a30c681e] +
      [0xa1c0fec57cf94af79479a6d827fa518c, 0xa416acf9ef5a4af19fb11ed3b96b1fe6, 0xa4308c6855c84eb2873e01b6cc85cbb3, 0xa9dba34cf5814d4ab2007b4ada0045bd, 0xabe78e2276664f4db588c1f675a77486, 0xae16e88bc7814753a1894c7ce187ab72, 0xb33f02c6f7284e05a6f20741c0bb0567, 0xb88a3aa889474524bccea5cf18f122bf] +
      [0xbf7481a1826f439697cb59a20b22293e, 0xbfe0d8686a584fa680f4c53b5eb0de6d, 0xc03055bc037c4ea9afb9a9f104b7b721, 0xc07321b023e944ff818fec44d8203567, 0xc244ec076974430a88bda1cdd992d0d9, 0xc6f6338ceae545d0b90daaa1fed855e6, 0xc9915d86fbff46af9dd945c0a882294b, 0xcde8c82463b6414ca06e46b9633f52a6] +
      [0xcdeb15b336e640a2965df8c65052f1e0, 0xd2a1802cc9a34e30852f8b33869b2f3c, 0xd30c9ad8b5224e7cb8d41bcb4757effc, 0xd44ed14bcc4340b194d3824d60edad3f, 0xda6d2d6f2ec8442eaadda60d13f42bca, 0xdadeaf3abdf14126a77a35e0c92fc36e, 0xdb37e5f1cb1a4e1aabaef8deaea43575, 0xe086da7e2179491d91ee5f35b3ca210a] +
      [0xe0dc25a0fbdf4286b1ea100e3256b0e3, 0xe17beae8b8cb423a99b1730f21238bed, 0xe4589eb09e63436686cd64252a3aebeb, 0xe6d2666161e84845a636613608cee8d5, 0xed07f6c337da4195b4e72a1fb2c6bcae, 0xefb81b5cd37d49f3be1da9363a6d7a19, 0xf0235726de25444a84f704b7c93afadf, 0xf7f0eda5697f475c90846e879bab8666] +
      [0xfb6778dc191143babbfaa57993f1d275]
    // cmd/add.go:463-501
    case WriteEverythingZone =>
      [0x06f0526e6e464647bd61b63c54935235, 0x094547ab6e77498c8c4dfa87fadd5c51, 0x0ac90a90249747bca6b047d97f0803e9, 0x0fd9d56bc2da43ad8ea22d610dd8cab1, 0x2002629aaff0454085bf5a201ed70a72, 0x24fc124dc8254e0db468e60bf410c800, 0x28f4b596e7d643029c524985477ae49a, 0x2eee71c9364c4cacaf469e8370f09056] +
      [0x3030687196b94b638145a3953da2b699, 0x3b94c49258ec4573b06d51d99b6416c0, 0x3e0b5820118e47f3922f7c989e673882, 0x43137f8d07884d3198dc0ee77ca6e79b, 0x4755a26eedb94da69e1066d98aa820be, 0x5ea6da42edb34811a78d1b007557c0ca, 0x6134079371904d8ebd77931c8ca07e50, 0x6d7f2f5f5b1d4a0e9081fdc98d432fd1] +
      [0x6db4e222e21248ac96a3f4c2a81e3b41, 0x74e1036f577a48528b78d2413b40538d, 0x79b3ec0d10ce4148a8f8bdc0cc5f97f2, 0x87065285ab38463481e72815eefd18c3, 0x89bb8c37d46042e98b84560eaaa6379f, 0x89d5bf002389496e9994b8c30608b5d0, 0x9110d9dd749e464fb9f3961a2064efc5, 0x959972745952452f8be2452be8cbb9f2] +
      [0x9ff81cbbe65c400b97d92c3c1033cab6, 0xa4308c6855c84eb2873e01b6cc85cbb3, 0xa9dba34cf5814d4ab2007b4ada0045bd, 0xb88a3aa889474524bccea5cf18f122bf, 0xc03055bc037c4ea9afb9a9f104b7b721, 0xc244ec076974430a88bda1cdd992d0d9, 0xc9915d86fbff46af9dd945c0a882294b, 0xcdeb15b336e640a2965df8c65052f1e0] +
      [0xdadeaf3abdf14126a77a35e0c92fc36e, 0xe0dc25a0fbdf4286b1ea100e3256b0e3, 0xe17beae8b8cb423a99b1730f21238bed, 0xe6d2666161e84845a636613608cee8d5, 0xed07f6c337da4195b4e72a1fb2c6bcae, 0xf0235726de25444a84f704b7c93afadf, 0xfb6778dc191143babbfaa57993f1d275]
    // cmd/add.go:508-509
    case WriteEverythingUser =>
      [0x55a5e17cc99e4a3fa1f3432d262f2e55, 0x9201bc6f42d440968aaab0c6f17ebb1d]
  }

  /** Each entry from position `k` on is smaller than the next one. */
  predicate IncreasingFrom(s: seq<nat>, k: nat)
    decreases |s| - k
  {
    k + 1 >= |s| || (s[k] < s[k + 1] && IncreasingFrom(s, k + 1))
  }

  /** A merge walk over two ascending lists, from positions `i` and `j`, that
      never meets the same ID in both. */
  predicate DisjointFrom(xs: seq<nat>, ys: seq<nat>, i: nat, j: nat)
    decreases |xs| - i + |ys| - j
  {
    i >= |xs| || j >= |ys| ||
    (if xs[i] < ys[j] then DisjointFrom(xs, ys, i + 1, j)
     else if ys[j] < xs[i] then DisjointFrom(xs, ys, i, j + 1)
     else false)
  }

  lemma AscendingReadOnlyAccountFrom72()
    ensures IncreasingFrom(Ids(ReadOnlyAccount), 72)
  {
    assert IncreasingFrom(Ids(ReadOnlyAccount), 88);
    assert IncreasingFrom(Ids(ReadOnlyAccount), 84);
    assert IncreasingFrom(Ids(ReadOnlyAccount), 80);
    assert IncreasingFrom(Ids(ReadOnlyAccount), 76);
  }

  lemma AscendingReadOnlyAccountFrom52()
    ensures IncreasingFrom(Ids(ReadOnlyAccount), 52)
  {
    AscendingReadOnlyAccountFrom72();
    assert IncreasingFrom(Ids(ReadOnlyAccount), 68);
    assert IncreasingFrom(Ids(ReadOnlyAccount), 64);
    assert IncreasingFrom(Ids(ReadOnlyAccount), 60);
    assert IncreasingFrom(Ids(ReadOnlyAccount), 56);
  }

  lemma AscendingReadOnlyAccountFrom32()
    ensures IncreasingFrom(Ids(ReadOnlyAccount), 32)
  {
    AscendingReadOnlyAccountFrom52();
    assert IncreasingFrom(Ids(ReadOnlyAccount), 48);
    assert IncreasingFrom(Ids(ReadOnlyAccount), 44);
    assert IncreasingFrom(Ids(ReadOnlyAccount), 40);
    assert IncreasingFrom(Ids(ReadOnlyAccount), 36);
  }

  lemma AscendingReadOnlyAccountFrom12()
    ensures IncreasingFrom(Ids(ReadOnlyAccount), 12)
  {
    AscendingReadOnlyAccountFrom32();
    assert IncreasingFrom(Ids(ReadOnlyAccount), 28);
    assert IncreasingFrom(Ids(ReadOnlyAccount), 24);
    assert IncreasingFrom(Ids(ReadOnlyAccount), 20);
    assert IncreasingFrom(Ids(ReadOnlyAccount), 16);
  }

  lemma AscendingReadOnlyAccount()
    ensures IncreasingFrom(Ids(ReadOnlyAccount), 0)
  {
    AscendingReadOnlyAccountFrom12();
    assert IncreasingFrom(Ids(ReadOnlyAccount), 8);
    assert IncreasingFrom(Ids(ReadOnlyAccount), 4);
  }

  lemma AscendingReadOnlyZoneFrom16()
    ensures IncreasingFrom(Ids(ReadOnlyZone), 16)
  {
    assert IncreasingFrom(Ids(ReadOnlyZone), 32);
    assert IncreasingFrom(Ids(ReadOnlyZone), 28);
    assert IncreasingFrom(Ids(ReadOnlyZone), 24);
    assert IncreasingFrom(Ids(ReadOnlyZone), 20);
  }

  lemma AscendingReadOnlyZone()
    ensures IncreasingFrom(Ids(ReadOnlyZone), 0)
  {
    AscendingReadOnlyZoneFrom16();
    assert IncreasingFrom(Ids(ReadOnlyZone), 12);
    assert IncreasingFrom(Ids(ReadOnlyZone), 8);
    assert IncreasingFrom(Ids(ReadOnlyZone), 4);
  }

  lemma AscendingWriteEverythingAccountFrom76()
    ensures IncreasingFrom(Ids(WriteEverythingAccount), 76)
  {
    assert IncreasingFrom(Ids(WriteEverythingAccount), 92);
    assert IncreasingFrom(Ids(WriteEverythingAccount), 88);
    assert IncreasingFrom(Ids(WriteEverythingAccount), 84);
    assert IncreasingFrom(Ids(WriteEverythingAccount), 80);
  }

  lemma AscendingWriteEverythingAccountFrom56()
    ensures IncreasingFrom(Ids(WriteEverythingAccount), 56)
  {
    AscendingWriteEverythingAccountFrom76();
    assert IncreasingFrom(Ids(WriteEverythingAccount), 72);
    assert IncreasingFrom(Ids(WriteEverythingAccount), 68);
    assert IncreasingFrom(Ids(WriteEverythingAccount), 64);
    assert IncreasingFrom(Ids(WriteEverythingAccount), 60);
  }

  lemma AscendingWriteEverythingAccountFrom36()
    ensures IncreasingFrom(Ids(WriteEverythingAccount), 36)
  {
    AscendingWriteEverythingAccountFrom56();
    assert IncreasingFrom(Ids(WriteEverythingAccount), 52);
    assert IncreasingFrom(Ids(WriteEverythingAccount), 48);
    assert IncreasingFrom(Ids(WriteEverythingAccount), 44);
    assert IncreasingFrom(Ids(WriteEverythingAccount), 40);
  }

  lemma AscendingWriteEverythingAccountFrom16()
    ensures IncreasingFrom(Ids(WriteEverythingAccount), 16)
  {
    AscendingWriteEverythingAccountFrom36();
    assert IncreasingFrom(Ids(WriteEverythingAccount), 32);
    assert IncreasingFrom(Ids(WriteEverythingAccount), 28);
    assert IncreasingFrom(Ids(WriteEverythingAccount), 24);
    assert IncreasingFrom(Ids(WriteEverythingAccount), 20);
  }

  lemma AscendingWriteEverythingAccount()
    ensures IncreasingFrom(Ids(WriteEverythingAccount), 0)
  {
    AscendingWriteEverythingAccountFrom16();
    assert IncreasingFrom(Ids(WriteEverythingAccount), 12);
    assert IncreasingFrom(Ids(WriteEverythingAccount), 8);
    assert IncreasingFrom(Ids(WriteEverythingAccount), 4);
  }

  lemma AscendingWriteEverythingZoneFrom20()
    ensures IncreasingFrom(Ids(WriteEverythingZone), 20)
  {
    assert IncreasingFrom(Ids(WriteEverythingZone), 36);
    assert IncreasingFrom(Ids(WriteEverythingZone), 32);
    assert IncreasingFrom(Ids(WriteEverythingZone), 28);
    assert IncreasingFrom(Ids(WriteEverythingZone), 24);
  }

  lemma AscendingWriteEverythingZone()
    ensures IncreasingFrom(Ids(WriteEverythingZone), 0)
  {
    AscendingWriteEverythingZoneFrom20();
    assert IncreasingFrom(Ids(WriteEverythingZone), 16);
    assert IncreasingFrom(Ids(WriteEverythingZone), 12);
    assert IncreasingFrom(Ids(WriteEverythingZone), 8);
    assert IncreasingFrom(Ids(WriteEverythingZone), 4);
  }

  lemma DisjointAccountFrom79_89()
    ensures DisjointFrom(Ids(ReadOnlyAccount), Ids(WriteEverythingAccount), 79, 89)
  {
    assert DisjointFrom(Ids(ReadOnlyAccount), Ids(WriteEverythingAccount), 88, 96);
    assert DisjointFrom(Ids(ReadOnlyAccount), Ids(WriteEverythingAccount), 86, 94);
    assert DisjointFrom(Ids(ReadOnlyAccount), Ids(WriteEverythingAccount), 84, 92);
    assert DisjointFrom(Ids(ReadOnlyAccount), Ids(WriteEverythingAccount), 81, 91);
  }

  lemma DisjointAccountFrom71_77()
    ensures DisjointFrom(Ids(ReadOnlyAccount), Ids(WriteEverythingAccount), 71, 77)
  {
    DisjointAccountFrom79_89();
    assert DisjointFrom(Ids(ReadOnlyAccount), Ids(WriteEverythingAccount), 77, 87);
    assert DisjointFrom(Ids(ReadOnlyAccount), Ids(WriteEverythingAccount), 75, 85);
    assert DisjointFrom(Ids(ReadOnlyAccount), Ids(WriteEverythingAccount), 74, 82);
    assert DisjointFrom(Ids(ReadOnlyAccount), Ids(WriteEverythingAccount), 73, 79);
  }

  lemma DisjointAccountFrom61_67()
    ensures DisjointFrom(Ids(ReadOnlyAccount), Ids(WriteEverythingAccount), 61, 67)
  {
    DisjointAccountFrom71_77();
    assert DisjointFrom(Ids(ReadOnlyAccount), Ids(WriteEverythingAccount), 68, 76);
    assert DisjointFrom(Ids(ReadOnlyAccount), Ids(WriteEverythingAccount), 68, 72);
    assert DisjointFrom(Ids(ReadOnlyAccount), Ids(WriteEverythingAccount), 65, 71);
    assert DisjointFrom(Ids(ReadOnlyAccount), Ids(WriteEverythingAccount), 63, 69);
  }

  lemma DisjointAccountFrom52_56()
    ensures DisjointFrom(Ids(ReadOnlyAccount), Ids(WriteEverythingAccount), 52, 56)
  {
    DisjointAccountFrom61_67();
    assert DisjointFrom(Ids(ReadOnlyAccount), Ids(WriteEverythingAccount), 59, 65);
    assert DisjointFrom(Ids(ReadOnlyAccount), Ids(WriteEverythingAccount), 58, 62);
    assert DisjointFrom(Ids(ReadOnlyAccount), Ids(WriteEverythingAccount), 54, 62);
    assert DisjointFrom(Ids(ReadOnlyAccount), Ids(WriteEverythingAccount), 53, 59);
  }

  lemma DisjointAccountFrom44_44()
    ensures DisjointFrom(Ids(ReadOnlyAccount), Ids(WriteEverythingAccount), 44, 44)
  {
    DisjointAccountFrom52_56();
    assert DisjointFrom(Ids(ReadOnlyAccount), Ids(WriteEverythingAccount), 51, 53);
    assert DisjointFrom(Ids(ReadOnlyAccount), Ids(WriteEverythingAccount), 50, 50);
    assert DisjointFrom(Ids(ReadOnlyAccount), Ids(WriteEverythingAccount), 49, 47);
    assert DisjointFrom(Ids(ReadOnlyAccount), Ids(WriteEverythingAccount), 46, 46);
  }

  lemma DisjointAccountFrom36_32()
    ensures DisjointFrom(Ids(ReadOnlyAccount), Ids(WriteEverythingAccount), 36, 32)
  {
    DisjointAccountFrom44_44();
    assert DisjointFrom(Ids(ReadOnlyAccount), Ids(WriteEverythingAccount), 43, 41);
    assert DisjointFrom(Ids(ReadOnlyAccount), Ids(WriteEverythingAccount), 42, 38);
    assert DisjointFrom(Ids(ReadOnlyAccount), Ids(WriteEverythingAccount), 40, 36);
    assert DisjointFrom(Ids(ReadOnlyAccount), Ids(WriteEverythingAccount), 39, 33);
  }

  lemma DisjointAccountFrom24_24()
    ensures DisjointFrom(Ids(ReadOnlyAccount), Ids(WriteEverythingAccount), 24, 24)
  {
    DisjointAccountFrom36_32();
    assert DisjointFrom(Ids(ReadOnlyAccount), Ids(WriteEverythingAccount), 33, 31);
    assert DisjointFrom(Ids(ReadOnlyAccount), Ids(WriteEverythingAccount), 30, 30);
    assert DisjointFrom(Ids(ReadOnlyAccount), Ids(WriteEverythingAccount), 27, 29);
    assert DisjointFrom(Ids(ReadOnlyAccount), Ids(WriteEverythingAccount), 26, 26);
  }

  lemma DisjointAccountFrom16_12()
    ensures DisjointFrom(Ids(ReadOnlyAccount), Ids(WriteEverythingAccount), 16, 12)
  {
    DisjointAccountFrom24_24();
    assert DisjointFrom(Ids(ReadOnlyAccount), Ids(WriteEverythingAccount), 22, 22);
    assert DisjointFrom(Ids(ReadOnlyAccount), Ids(WriteEverythingAccount), 19, 21);
    assert DisjointFrom(Ids(ReadOnlyAccount), Ids(WriteEverythingAccount), 19, 17);
    assert DisjointFrom(Ids(ReadOnlyAccount), Ids(WriteEverythingAccount), 18, 14);
  }

  lemma DisjointAccountFrom5_3()
    ensures DisjointFrom(Ids(ReadOnlyAccount), Ids(WriteEverythingAccount), 5, 3)
  {
    DisjointAccountFrom16_12();
    assert DisjointFrom(Ids(ReadOnlyAccount), Ids(WriteEverythingAccount), 13, 11);
    assert DisjointFrom(Ids(ReadOnlyAccount), Ids(WriteEverythingAccount), 11, 9);
    assert DisjointFrom(Ids(ReadOnlyAccount), Ids(WriteEverythingAccount), 8, 8);
    assert DisjointFrom(Ids(ReadOnlyAccount), Ids(WriteEverythingAccount), 6, 6);
  }

  lemma DisjointAccount()
    ensures DisjointFrom(Ids(ReadOnlyAccount), Ids(WriteEverythingAccount), 0, 0)
  {
    DisjointAccountFrom5_3();
    assert DisjointFrom(Ids(ReadOnlyAccount), Ids(WriteEverythingAccount), 3, 1);
  }

  lemma DisjointZoneFrom26_30()
    ensures DisjointFrom(Ids(ReadOnlyZone), Ids(WriteEverythingZone), 26, 30)
  {
    assert DisjointFrom(Ids(ReadOnlyZone), Ids(WriteEverythingZone), 34, 38);
    assert DisjointFrom(Ids(ReadOnlyZone), Ids(WriteEverythingZone), 32, 36);
    assert DisjointFrom(Ids(ReadOnlyZone), Ids(WriteEverythingZone), 31, 33);
    assert DisjointFrom(Ids(ReadOnlyZone), Ids(WriteEverythingZone), 29, 31);
  }

  lemma DisjointZoneFrom17_19()
    ensures DisjointFrom(Ids(ReadOnlyZone), Ids(WriteEverythingZone), 17, 19)
  {
    DisjointZoneFrom26_30();
    assert DisjointFrom(Ids(ReadOnlyZone), Ids(WriteEverythingZone), 25, 27);
    assert DisjointFrom(Ids(ReadOnlyZone), Ids(WriteEverythingZone), 23, 25);
    assert DisjointFrom(Ids(ReadOnlyZone), Ids(WriteEverythingZone), 21, 23);
    assert DisjointFrom(Ids(ReadOnlyZone), Ids(WriteEverythingZone), 19, 21);
  }

  lemma DisjointZoneFrom7_9()
    ensures DisjointFrom(Ids(ReadOnlyZone), Ids(WriteEverythingZone), 7, 9)
  {
    DisjointZoneFrom17_19();
    assert DisjointFrom(Ids(ReadOnlyZone), Ids(WriteEverythingZone), 15, 17);
    assert DisjointFrom(Ids(ReadOnlyZone), Ids(WriteEverythingZone), 13, 15);
    assert DisjointFrom(Ids(ReadOnlyZone), Ids(WriteEverythingZone), 11, 13);
    assert DisjointFrom(Ids(ReadOnlyZone), Ids(WriteEverythingZone), 9, 11);
  }

  lemma DisjointZone()
    ensures DisjointFrom(Ids(ReadOnlyZone), Ids(WriteEverythingZone), 0, 0)
  {
    DisjointZoneFrom7_9();
    assert DisjointFrom(Ids(ReadOnlyZone), Ids(WriteEverythingZone), 7, 5);
    assert DisjointFrom(Ids(ReadOnlyZone), Ids(WriteEverythingZone), 4, 4);
    assert DisjointFrom(Ids(ReadOnlyZone), Ids(WriteEverythingZone), 1, 3);
  }

  /** Every pair of positions is in order, not only neighbours. */
  predicate StrictlyAscending(s: seq<nat>)
  {
    forall p, q :: 0 <= p < q < |s| ==> s[p] < s[q]
  }

  /** No entry of `xs` is an entry of `ys`. */
  predicate ShareNothing(xs: seq<nat>, ys: seq<nat>)
  {
    forall p, q :: 0 <= p < |xs| && 0 <= q < |ys| ==> xs[p] != ys[q]
  }

  lemma {:induction false} IncreasingFromAscending(s: seq<nat>, k: nat)
    requires IncreasingFrom(s, k)
    ensures forall p, q :: k <= p < q < |s| ==> s[p] < s[q]
    decreases |s| - k
  {
    if k + 1 < |s| {
      IncreasingFromAscending(s, k + 1);
    }
  }

  /** A merge walk that never meets a common entry shows the remaining parts
      of two ascending lists disjoint. */
  lemma {:induction false} DisjointFromShareNothing(xs: seq<nat>, ys: seq<nat>, i: nat, j: nat)
    requires StrictlyAscending(xs) && StrictlyAscending(ys)
    requires DisjointFrom(xs, ys, i, j)
    ensures forall p, q :: i <= p < |xs| && j <= q < |ys| ==> xs[p] != ys[q]
    decreases |xs| - i + |ys| - j
  {
    if i < |xs| && j < |ys| {
      if xs[i] < ys[j] {
        DisjointFromShareNothing(xs, ys, i + 1, j);
      } else {
        DisjointFromShareNothing(xs, ys, i, j + 1);
      }
    }
  }

  /** An ascending list whose last entry is below IdBound holds only entries
      below it. */
  lemma AscendingBelow(s: seq<nat>)
    requires IncreasingFrom(s, 0)
    requires |s| > 0 && s[|s| - 1] < IdBound
    ensures StrictlyAscending(s)
    ensures forall k :: 0 <= k < |s| ==> s[k] < IdBound
  {
    IncreasingFromAscending(s, 0);
  }

  /** The six lists are strictly ascending, so none holds an ID twice, and
      every ID in them fits in 32 hexadecimal digits. */
  predicate WellFormed(s: seq<nat>)
  {
    StrictlyAscending(s) && forall k :: 0 <= k < |s| ==> s[k] < IdBound
  }

  lemma ReadOnlyWellFormed()
    ensures WellFormed(Ids(ReadOnlyAccount))
    ensures WellFormed(Ids(ReadOnlyZone))
    ensures WellFormed(Ids(ReadOnlyUser))
  {
    AscendingReadOnlyAccount();
    AscendingBelow(Ids(ReadOnlyAccount));
    AscendingReadOnlyZone();
    AscendingBelow(Ids(ReadOnlyZone));
    AscendingBelow(Ids(ReadOnlyUser));
  }

  lemma WriteEverythingWellFormed()
    ensures WellFormed(Ids(WriteEverythingAccount))
    ensures WellFormed(Ids(WriteEverythingZone))
    ensures WellFormed(Ids(WriteEverythingUser))
  {
    AscendingWriteEverythingAccount();
    AscendingBelow(Ids(WriteEverythingAccount));
    AscendingWriteEverythingZone();
    AscendingBelow(Ids(WriteEverythingZone));
    AscendingBelow(Ids(WriteEverythingUser));
  }

  /** For each resource, the read-only and the write-everything lists share
      no ID. */
  lemma ReadOnlyApartFromWriteEverything()
    ensures ShareNothing(Ids(ReadOnlyAccount), Ids(WriteEverythingAccount))
    ensures ShareNothing(Ids(ReadOnlyZone), Ids(WriteEverythingZone))
    ensures ShareNothing(Ids(ReadOnlyUser), Ids(WriteEverythingUser))
  {
    ReadOnlyWellFormed();
    WriteEverythingWellFormed();
    DisjointAccount();
    DisjointFromShareNothing(Ids(ReadOnlyAccount), Ids(WriteEverythingAccount), 0, 0);
    DisjointZone();
    DisjointFromShareNothing(Ids(ReadOnlyZone), Ids(WriteEverythingZone), 0, 0);
    DisjointFromShareNothing(Ids(ReadOnlyUser), Ids(WriteEverythingUser), 0, 0);
  }

}

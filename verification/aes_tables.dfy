/** The literal lookup tables of aes.c.  The rounds use the formulas in the
    comment above the tables; here every entry is shown to agree with them. */
module AesTables {
  import opened Bytes
  import opened AesBytes
  import R = AesRounds

  /** A word as the code stores it. */
  function Pack(w: R.Word): bv32 {
    ((w.b3 as bv32) << 24) | ((w.b2 as bv32) << 16) | ((w.b1 as bv32) << 8) | (w.b0 as bv32)
  }

  function Te0Entry(x: byte): bv32 {
    if x < 0x04 then (if x < 0x02 then (if x == 0x00 then 0xc66363a5 else 0xf87c7c84) else if x == 0x02 then 0xee777799 else 0xf67b7b8d)
    else if x < 0x08 then (if x < 0x06 then (if x == 0x04 then 0xfff2f20d else 0xd66b6bbd) else if x == 0x06 then 0xde6f6fb1 else 0x91c5c554)
    else if x < 0x0c then (if x < 0x0a then (if x == 0x08 then 0x60303050 else 0x02010103) else if x == 0x0a then 0xce6767a9 else 0x562b2b7d)
    else if x < 0x10 then (if x < 0x0e then (if x == 0x0c then 0xe7fefe19 else 0xb5d7d762) else if x == 0x0e then 0x4dababe6 else 0xec76769a)
    else if x < 0x14 then (if x < 0x12 then (if x == 0x10 then 0x8fcaca45 else 0x1f82829d) else if x == 0x12 then 0x89c9c940 else 0xfa7d7d87)
    else if x < 0x18 then (if x < 0x16 then (if x == 0x14 then 0xeffafa15 else 0xb25959eb) else if x == 0x16 then 0x8e4747c9 else 0xfbf0f00b)
    else if x < 0x1c then (if x < 0x1a then (if x == 0x18 then 0x41adadec else 0xb3d4d467) else if x == 0x1a then 0x5fa2a2fd else 0x45afafea)
    else if x < 0x20 then (if x < 0x1e then (if x == 0x1c then 0x239c9cbf else 0x53a4a4f7) else if x == 0x1e then 0xe4727296 else 0x9bc0c05b)
    else if x < 0x24 then (if x < 0x22 then (if x == 0x20 then 0x75b7b7c2 else 0xe1fdfd1c) else if x == 0x22 then 0x3d9393ae else 0x4c26266a)
    else if x < 0x28 then (if x < 0x26 then (if x == 0x24 then 0x6c36365a else 0x7e3f3f41) else if x == 0x26 then 0xf5f7f702 else 0x83cccc4f)
    else if x < 0x2c then (if x < 0x2a then (if x == 0x28 then 0x6834345c else 0x51a5a5f4) else if x == 0x2a then 0xd1e5e534 else 0xf9f1f108)
    else if x < 0x30 then (if x < 0x2e then (if x == 0x2c then 0xe2717193 else 0xabd8d873) else if x == 0x2e then 0x62313153 else 0x2a15153f)
    else if x < 0x34 then (if x < 0x32 then (if x == 0x30 then 0x0804040c else 0x95c7c752) else if x == 0x32 then 0x46232365 else 0x9dc3c35e)
    else if x < 0x38 then (if x < 0x36 then (if x == 0x34 then 0x30181828 else 0x379696a1) else if x == 0x36 then 0x0a05050f else 0x2f9a9ab5)
    else if x < 0x3c then (if x < 0x3a then (if x == 0x38 then 0x0e070709 else 0x24121236) else if x == 0x3a then 0x1b80809b else 0xdfe2e23d)
    else if x < 0x40 then (if x < 0x3e then (if x == 0x3c then 0xcdebeb26 else 0x4e272769) else if x == 0x3e then 0x7fb2b2cd else 0xea75759f)
    else if x < 0x44 then (if x < 0x42 then (if x == 0x40 then 0x1209091b else 0x1d83839e) else if x == 0x42 then 0x582c2c74 else 0x341a1a2e)
    else if x < 0x48 then (if x < 0x46 then (if x == 0x44 then 0x361b1b2d else 0xdc6e6eb2) else if x == 0x46 then 0xb45a5aee else 0x5ba0a0fb)
    else if x < 0x4c then (if x < 0x4a then (if x == 0x48 then 0xa45252f6 else 0x763b3b4d) else if x == 0x4a then 0xb7d6d661 else 0x7db3b3ce)
    else if x < 0x50 then (if x < 0x4e then (if x == 0x4c then 0x5229297b else 0xdde3e33e) else if x == 0x4e then 0x5e2f2f71 else 0x13848497)
    else if x < 0x54 then (if x < 0x52 then (if x == 0x50 then 0xa65353f5 else 0xb9d1d168) else if x == 0x52 then 0x00000000 else 0xc1eded2c)
    else if x < 0x58 then (if x < 0x56 then (if x == 0x54 then 0x40202060 else 0xe3fcfc1f) else if x == 0x56 then 0x79b1b1c8 else 0xb65b5bed)
    else if x < 0x5c then (if x < 0x5a then (if x == 0x58 then 0xd46a6abe else 0x8dcbcb46) else if x == 0x5a then 0x67bebed9 else 0x7239394b)
    else if x < 0x60 then (if x < 0x5e then (if x == 0x5c then 0x944a4ade else 0x984c4cd4) else if x == 0x5e then 0xb05858e8 else 0x85cfcf4a)
    else if x < 0x64 then (if x < 0x62 then (if x == 0x60 then 0xbbd0d06b else 0xc5efef2a) else if x == 0x62 then 0x4faaaae5 else 0xedfbfb16)
    else if x < 0x68 then (if x < 0x66 then (if x == 0x64 then 0x864343c5 else 0x9a4d4dd7) else if x == 0x66 then 0x66333355 else 0x11858594)
    else if x < 0x6c then (if x < 0x6a then (if x == 0x68 then 0x8a4545cf else 0xe9f9f910) else if x == 0x6a then 0x04020206 else 0xfe7f7f81)
    else if x < 0x70 then (if x < 0x6e then (if x == 0x6c then 0xa05050f0 else 0x783c3c44) else if x == 0x6e then 0x259f9fba else 0x4ba8a8e3)
    else if x < 0x74 then (if x < 0x72 then (if x == 0x70 then 0xa25151f3 else 0x5da3a3fe) else if x == 0x72 then 0x804040c0 else 0x058f8f8a)
    else if x < 0x78 then (if x < 0x76 then (if x == 0x74 then 0x3f9292ad else 0x219d9dbc) else if x == 0x76 then 0x70383848 else 0xf1f5f504)
    else if x < 0x7c then (if x < 0x7a then (if x == 0x78 then 0x63bcbcdf else 0x77b6b6c1) else if x == 0x7a then 0xafdada75 else 0x42212163)
    else if x < 0x80 then (if x < 0x7e then (if x == 0x7c then 0x20101030 else 0xe5ffff1a) else if x == 0x7e then 0xfdf3f30e else 0xbfd2d26d)
    else if x < 0x84 then (if x < 0x82 then (if x == 0x80 then 0x81cdcd4c else 0x180c0c14) else if x == 0x82 then 0x26131335 else 0xc3ecec2f)
    else if x < 0x88 then (if x < 0x86 then (if x == 0x84 then 0xbe5f5fe1 else 0x359797a2) else if x == 0x86 then 0x884444cc else 0x2e171739)
    else if x < 0x8c then (if x < 0x8a then (if x == 0x88 then 0x93c4c457 else 0x55a7a7f2) else if x == 0x8a then 0xfc7e7e82 else 0x7a3d3d47)
    else if x < 0x90 then (if x < 0x8e then (if x == 0x8c then 0xc86464ac else 0xba5d5de7) else if x == 0x8e then 0x3219192b else 0xe6737395)
    else if x < 0x94 then (if x < 0x92 then (if x == 0x90 then 0xc06060a0 else 0x19818198) else if x == 0x92 then 0x9e4f4fd1 else 0xa3dcdc7f)
    else if x < 0x98 then (if x < 0x96 then (if x == 0x94 then 0x44222266 else 0x542a2a7e) else if x == 0x96 then 0x3b9090ab else 0x0b888883)
    else if x < 0x9c then (if x < 0x9a then (if x == 0x98 then 0x8c4646ca else 0xc7eeee29) else if x == 0x9a then 0x6bb8b8d3 else 0x2814143c)
    else if x < 0xa0 then (if x < 0x9e then (if x == 0x9c then 0xa7dede79 else 0xbc5e5ee2) else if x == 0x9e then 0x160b0b1d else 0xaddbdb76)
    else if x < 0xa4 then (if x < 0xa2 then (if x == 0xa0 then 0xdbe0e03b else 0x64323256) else if x == 0xa2 then 0x743a3a4e else 0x140a0a1e)
    else if x < 0xa8 then (if x < 0xa6 then (if x == 0xa4 then 0x924949db else 0x0c06060a) else if x == 0xa6 then 0x4824246c else 0xb85c5ce4)
    else if x < 0xac then (if x < 0xaa then (if x == 0xa8 then 0x9fc2c25d else 0xbdd3d36e) else if x == 0xaa then 0x43acacef else 0xc46262a6)
    else if x < 0xb0 then (if x < 0xae then (if x == 0xac then 0x399191a8 else 0x319595a4) else if x == 0xae then 0xd3e4e437 else 0xf279798b)
    else if x < 0xb4 then (if x < 0xb2 then (if x == 0xb0 then 0xd5e7e732 else 0x8bc8c843) else if x == 0xb2 then 0x6e373759 else 0xda6d6db7)
    else if x < 0xb8 then (if x < 0xb6 then (if x == 0xb4 then 0x018d8d8c else 0xb1d5d564) else if x == 0xb6 then 0x9c4e4ed2 else 0x49a9a9e0)
    else if x < 0xbc then (if x < 0xba then (if x == 0xb8 then 0xd86c6cb4 else 0xac5656fa) else if x == 0xba then 0xf3f4f407 else 0xcfeaea25)
    else if x < 0xc0 then (if x < 0xbe then (if x == 0xbc then 0xca6565af else 0xf47a7a8e) else if x == 0xbe then 0x47aeaee9 else 0x10080818)
    else if x < 0xc4 then (if x < 0xc2 then (if x == 0xc0 then 0x6fbabad5 else 0xf0787888) else if x == 0xc2 then 0x4a25256f else 0x5c2e2e72)
    else if x < 0xc8 then (if x < 0xc6 then (if x == 0xc4 then 0x381c1c24 else 0x57a6a6f1) else if x == 0xc6 then 0x73b4b4c7 else 0x97c6c651)
    else if x < 0xcc then (if x < 0xca then (if x == 0xc8 then 0xcbe8e823 else 0xa1dddd7c) else if x == 0xca then 0xe874749c else 0x3e1f1f21)
    else if x < 0xd0 then (if x < 0xce then (if x == 0xcc then 0x964b4bdd else 0x61bdbddc) else if x == 0xce then 0x0d8b8b86 else 0x0f8a8a85)
    else if x < 0xd4 then (if x < 0xd2 then (if x == 0xd0 then 0xe0707090 else 0x7c3e3e42) else if x == 0xd2 then 0x71b5b5c4 else 0xcc6666aa)
    else if x < 0xd8 then (if x < 0xd6 then (if x == 0xd4 then 0x904848d8 else 0x06030305) else if x == 0xd6 then 0xf7f6f601 else 0x1c0e0e12)
    else if x < 0xdc then (if x < 0xda then (if x == 0xd8 then 0xc26161a3 else 0x6a35355f) else if x == 0xda then 0xae5757f9 else 0x69b9b9d0)
    else if x < 0xe0 then (if x < 0xde then (if x == 0xdc then 0x17868691 else 0x99c1c158) else if x == 0xde then 0x3a1d1d27 else 0x279e9eb9)
    else if x < 0xe4 then (if x < 0xe2 then (if x == 0xe0 then 0xd9e1e138 else 0xebf8f813) else if x == 0xe2 then 0x2b9898b3 else 0x22111133)
    else if x < 0xe8 then (if x < 0xe6 then (if x == 0xe4 then 0xd26969bb else 0xa9d9d970) else if x == 0xe6 then 0x078e8e89 else 0x339494a7)
    else if x < 0xec then (if x < 0xea then (if x == 0xe8 then 0x2d9b9bb6 else 0x3c1e1e22) else if x == 0xea then 0x15878792 else 0xc9e9e920)
    else if x < 0xf0 then (if x < 0xee then (if x == 0xec then 0x87cece49 else 0xaa5555ff) else if x == 0xee then 0x50282878 else 0xa5dfdf7a)
    else if x < 0xf4 then (if x < 0xf2 then (if x == 0xf0 then 0x038c8c8f else 0x59a1a1f8) else if x == 0xf2 then 0x09898980 else 0x1a0d0d17)
    else if x < 0xf8 then (if x < 0xf6 then (if x == 0xf4 then 0x65bfbfda else 0xd7e6e631) else if x == 0xf6 then 0x844242c6 else 0xd06868b8)
    else if x < 0xfc then (if x < 0xfa then (if x == 0xf8 then 0x824141c3 else 0x299999b0) else if x == 0xfa then 0x5a2d2d77 else 0x1e0f0f11)
    else (if x < 0xfe then (if x == 0xfc then 0x7bb0b0cb else 0xa85454fc) else if x == 0xfe then 0x6dbbbbd6 else 0x2c16163a)
  }

  lemma Te0First(x: byte)
    requires x < 0x40
    ensures Te0Entry(x) == Pack(R.Te0(x))
  {
  }

  lemma Te0Second(x: byte)
    requires 0x40 <= x < 0x80
    ensures Te0Entry(x) == Pack(R.Te0(x))
  {
  }

  lemma Te0Third(x: byte)
    requires 0x80 <= x < 0xc0
    ensures Te0Entry(x) == Pack(R.Te0(x))
  {
  }

  lemma Te0Fourth(x: byte)
    requires x >= 0xc0
    ensures Te0Entry(x) == Pack(R.Te0(x))
  {
  }

  lemma Te0Literal(x: byte)
    ensures Te0Entry(x) == Pack(R.Te0(x))
  {
    hide *;
    if x < 0x40 {
      Te0First(x);
    } else if x < 0x80 {
      Te0Second(x);
    } else if x < 0xc0 {
      Te0Third(x);
    } else {
      Te0Fourth(x);
    }
  }

  function Te1Entry(x: byte): bv32 {
    if x < 0x04 then (if x < 0x02 then (if x == 0x00 then 0xa5c66363 else 0x84f87c7c) else if x == 0x02 then 0x99ee7777 else 0x8df67b7b)
    else if x < 0x08 then (if x < 0x06 then (if x == 0x04 then 0x0dfff2f2 else 0xbdd66b6b) else if x == 0x06 then 0xb1de6f6f else 0x5491c5c5)
    else if x < 0x0c then (if x < 0x0a then (if x == 0x08 then 0x50603030 else 0x03020101) else if x == 0x0a then 0xa9ce6767 else 0x7d562b2b)
    else if x < 0x10 then (if x < 0x0e then (if x == 0x0c then 0x19e7fefe else 0x62b5d7d7) else if x == 0x0e then 0xe64dabab else 0x9aec7676)
    else if x < 0x14 then (if x < 0x12 then (if x == 0x10 then 0x458fcaca else 0x9d1f8282) else if x == 0x12 then 0x4089c9c9 else 0x87fa7d7d)
    else if x < 0x18 then (if x < 0x16 then (if x == 0x14 then 0x15effafa else 0xebb25959) else if x == 0x16 then 0xc98e4747 else 0x0bfbf0f0)
    else if x < 0x1c then (if x < 0x1a then (if x == 0x18 then 0xec41adad else 0x67b3d4d4) else if x == 0x1a then 0xfd5fa2a2 else 0xea45afaf)
    else if x < 0x20 then (if x < 0x1e then (if x == 0x1c then 0xbf239c9c else 0xf753a4a4) else if x == 0x1e then 0x96e47272 else 0x5b9bc0c0)
    else if x < 0x24 then (if x < 0x22 then (if x == 0x20 then 0xc275b7b7 else 0x1ce1fdfd) else if x == 0x22 then 0xae3d9393 else 0x6a4c2626)
    else if x < 0x28 then (if x < 0x26 then (if x == 0x24 then 0x5a6c3636 else 0x417e3f3f) else if x == 0x26 then 0x02f5f7f7 else 0x4f83cccc)
    else if x < 0x2c then (if x < 0x2a then (if x == 0x28 then 0x5c683434 else 0xf451a5a5) else if x == 0x2a then 0x34d1e5e5 else 0x08f9f1f1)
    else if x < 0x30 then (if x < 0x2e then (if x == 0x2c then 0x93e27171 else 0x73abd8d8) else if x == 0x2e then 0x53623131 else 0x3f2a1515)
    else if x < 0x34 then (if x < 0x32 then (if x == 0x30 then 0x0c080404 else 0x5295c7c7) else if x == 0x32 then 0x65462323 else 0x5e9dc3c3)
    else if x < 0x38 then (if x < 0x36 then (if x == 0x34 then 0x28301818 else 0xa1379696) else if x == 0x36 then 0x0f0a0505 else 0xb52f9a9a)
    else if x < 0x3c then (if x < 0x3a then (if x == 0x38 then 0x090e0707 else 0x36241212) else if x == 0x3a then 0x9b1b8080 else 0x3ddfe2e2)
    else if x < 0x40 then (if x < 0x3e then (if x == 0x3c then 0x26cdebeb else 0x694e2727) else if x == 0x3e then 0xcd7fb2b2 else 0x9fea7575)
    else if x < 0x44 then (if x < 0x42 then (if x == 0x40 then 0x1b120909 else 0x9e1d8383) else if x == 0x42 then 0x74582c2c else 0x2e341a1a)
    else if x < 0x48 then (if x < 0x46 then (if x == 0x44 then 0x2d361b1b else 0xb2dc6e6e) else if x == 0x46 then 0xeeb45a5a else 0xfb5ba0a0)
    else if x < 0x4c then (if x < 0x4a then (if x == 0x48 then 0xf6a45252 else 0x4d763b3b) else if x == 0x4a then 0x61b7d6d6 else 0xce7db3b3)
    else if x < 0x50 then (if x < 0x4e then (if x == 0x4c then 0x7b522929 else 0x3edde3e3) else if x == 0x4e then 0x715e2f2f else 0x97138484)
    else if x < 0x54 then (if x < 0x52 then (if x == 0x50 then 0xf5a65353 else 0x68b9d1d1) else if x == 0x52 then 0x00000000 else 0x2cc1eded)
    else if x < 0x58 then (if x < 0x56 then (if x == 0x54 then 0x60402020 else 0x1fe3fcfc) else if x == 0x56 then 0xc879b1b1 else 0xedb65b5b)
    else if x < 0x5c then (if x < 0x5a then (if x == 0x58 then 0xbed46a6a else 0x468dcbcb) else if x == 0x5a then 0xd967bebe else 0x4b723939)
    else if x < 0x60 then (if x < 0x5e then (if x == 0x5c then 0xde944a4a else 0xd4984c4c) else if x == 0x5e then 0xe8b05858 else 0x4a85cfcf)
    else if x < 0x64 then (if x < 0x62 then (if x == 0x60 then 0x6bbbd0d0 else 0x2ac5efef) else if x == 0x62 then 0xe54faaaa else 0x16edfbfb)
    else if x < 0x68 then (if x < 0x66 then (if x == 0x64 then 0xc5864343 else 0xd79a4d4d) else if x == 0x66 then 0x55663333 else 0x94118585)
    else if x < 0x6c then (if x < 0x6a then (if x == 0x68 then 0xcf8a4545 else 0x10e9f9f9) else if x == 0x6a then 0x06040202 else 0x81fe7f7f)
    else if x < 0x70 then (if x < 0x6e then (if x == 0x6c then 0xf0a05050 else 0x44783c3c) else if x == 0x6e then 0xba259f9f else 0xe34ba8a8)
    else if x < 0x74 then (if x < 0x72 then (if x == 0x70 then 0xf3a25151 else 0xfe5da3a3) else if x == 0x72 then 0xc0804040 else 0x8a058f8f)
    else if x < 0x78 then (if x < 0x76 then (if x == 0x74 then 0xad3f9292 else 0xbc219d9d) else if x == 0x76 then 0x48703838 else 0x04f1f5f5)
    else if x < 0x7c then (if x < 0x7a then (if x == 0x78 then 0xdf63bcbc else 0xc177b6b6) else if x == 0x7a then 0x75afdada else 0x63422121)
    else if x < 0x80 then (if x < 0x7e then (if x == 0x7c then 0x30201010 else 0x1ae5ffff) else if x == 0x7e then 0x0efdf3f3 else 0x6dbfd2d2)
    else if x < 0x84 then (if x < 0x82 then (if x == 0x80 then 0x4c81cdcd else 0x14180c0c) else if x == 0x82 then 0x35261313 else 0x2fc3ecec)
    else if x < 0x88 then (if x < 0x86 then (if x == 0x84 then 0xe1be5f5f else 0xa2359797) else if x == 0x86 then 0xcc884444 else 0x392e1717)
    else if x < 0x8c then (if x < 0x8a then (if x == 0x88 then 0x5793c4c4 else 0xf255a7a7) else if x == 0x8a then 0x82fc7e7e else 0x477a3d3d)
    else if x < 0x90 then (if x < 0x8e then (if x == 0x8c then 0xacc86464 else 0xe7ba5d5d) else if x == 0x8e then 0x2b321919 else 0x95e67373)
    else if x < 0x94 then (if x < 0x92 then (if x == 0x90 then 0xa0c06060 else 0x98198181) else if x == 0x92 then 0xd19e4f4f else 0x7fa3dcdc)
    else if x < 0x98 then (if x < 0x96 then (if x == 0x94 then 0x66442222 else 0x7e542a2a) else if x == 0x96 then 0xab3b9090 else 0x830b8888)
    else if x < 0x9c then (if x < 0x9a then (if x == 0x98 then 0xca8c4646 else 0x29c7eeee) else if x == 0x9a then 0xd36bb8b8 else 0x3c281414)
    else if x < 0xa0 then (if x < 0x9e then (if x == 0x9c then 0x79a7dede else 0xe2bc5e5e) else if x == 0x9e then 0x1d160b0b else 0x76addbdb)
    else if x < 0xa4 then (if x < 0xa2 then (if x == 0xa0 then 0x3bdbe0e0 else 0x56643232) else if x == 0xa2 then 0x4e743a3a else 0x1e140a0a)
    else if x < 0xa8 then (if x < 0xa6 then (if x == 0xa4 then 0xdb924949 else 0x0a0c0606) else if x == 0xa6 then 0x6c482424 else 0xe4b85c5c)
    else if x < 0xac then (if x < 0xaa then (if x == 0xa8 then 0x5d9fc2c2 else 0x6ebdd3d3) else if x == 0xaa then 0xef43acac else 0xa6c46262)
    else if x < 0xb0 then (if x < 0xae then (if x == 0xac then 0xa8399191 else 0xa4319595) else if x == 0xae then 0x37d3e4e4 else 0x8bf27979)
    else if x < 0xb4 then (if x < 0xb2 then (if x == 0xb0 then 0x32d5e7e7 else 0x438bc8c8) else if x == 0xb2 then 0x596e3737 else 0xb7da6d6d)
    else if x < 0xb8 then (if x < 0xb6 then (if x == 0xb4 then 0x8c018d8d else 0x64b1d5d5) else if x == 0xb6 then 0xd29c4e4e else 0xe049a9a9)
    else if x < 0xbc then (if x < 0xba then (if x == 0xb8 then 0xb4d86c6c else 0xfaac5656) else if x == 0xba then 0x07f3f4f4 else 0x25cfeaea)
    else if x < 0xc0 then (if x < 0xbe then (if x == 0xbc then 0xafca6565 else 0x8ef47a7a) else if x == 0xbe then 0xe947aeae else 0x18100808)
    else if x < 0xc4 then (if x < 0xc2 then (if x == 0xc0 then 0xd56fbaba else 0x88f07878) else if x == 0xc2 then 0x6f4a2525 else 0x725c2e2e)
    else if x < 0xc8 then (if x < 0xc6 then (if x == 0xc4 then 0x24381c1c else 0xf157a6a6) else if x == 0xc6 then 0xc773b4b4 else 0x5197c6c6)
    else if x < 0xcc then (if x < 0xca then (if x == 0xc8 then 0x23cbe8e8 else 0x7ca1dddd) else if x == 0xca then 0x9ce87474 else 0x213e1f1f)
    else if x < 0xd0 then (if x < 0xce then (if x == 0xcc then 0xdd964b4b else 0xdc61bdbd) else if x == 0xce then 0x860d8b8b else 0x850f8a8a)
    else if x < 0xd4 then (if x < 0xd2 then (if x == 0xd0 then 0x90e07070 else 0x427c3e3e) else if x == 0xd2 then 0xc471b5b5 else 0xaacc6666)
    else if x < 0xd8 then (if x < 0xd6 then (if x == 0xd4 then 0xd8904848 else 0x05060303) else if x == 0xd6 then 0x01f7f6f6 else 0x121c0e0e)
    else if x < 0xdc then (if x < 0xda then (if x == 0xd8 then 0xa3c26161 else 0x5f6a3535) else if x == 0xda then 0xf9ae5757 else 0xd069b9b9)
    else if x < 0xe0 then (if x < 0xde then (if x == 0xdc then 0x91178686 else 0x5899c1c1) else if x == 0xde then 0x273a1d1d else 0xb9279e9e)
    else if x < 0xe4 then (if x < 0xe2 then (if x == 0xe0 then 0x38d9e1e1 else 0x13ebf8f8) else if x == 0xe2 then 0xb32b9898 else 0x33221111)
    else if x < 0xe8 then (if x < 0xe6 then (if x == 0xe4 then 0xbbd26969 else 0x70a9d9d9) else if x == 0xe6 then 0x89078e8e else 0xa7339494)
    else if x < 0xec then (if x < 0xea then (if x == 0xe8 then 0xb62d9b9b else 0x223c1e1e) else if x == 0xea then 0x92158787 else 0x20c9e9e9)
    else if x < 0xf0 then (if x < 0xee then (if x == 0xec then 0x4987cece else 0xffaa5555) else if x == 0xee then 0x78502828 else 0x7aa5dfdf)
    else if x < 0xf4 then (if x < 0xf2 then (if x == 0xf0 then 0x8f038c8c else 0xf859a1a1) else if x == 0xf2 then 0x80098989 else 0x171a0d0d)
    else if x < 0xf8 then (if x < 0xf6 then (if x == 0xf4 then 0xda65bfbf else 0x31d7e6e6) else if x == 0xf6 then 0xc6844242 else 0xb8d06868)
    else if x < 0xfc then (if x < 0xfa then (if x == 0xf8 then 0xc3824141 else 0xb0299999) else if x == 0xfa then 0x775a2d2d else 0x111e0f0f)
    else (if x < 0xfe then (if x == 0xfc then 0xcb7bb0b0 else 0xfca85454) else if x == 0xfe then 0xd66dbbbb else 0x3a2c1616)
  }

  lemma Te1First(x: byte)
    requires x < 0x40
    ensures Te1Entry(x) == Pack(R.Te1(x))
  {
  }

  lemma Te1Second(x: byte)
    requires 0x40 <= x < 0x80
    ensures Te1Entry(x) == Pack(R.Te1(x))
  {
  }

  lemma Te1Third(x: byte)
    requires 0x80 <= x < 0xc0
    ensures Te1Entry(x) == Pack(R.Te1(x))
  {
  }

  lemma Te1Fourth(x: byte)
    requires x >= 0xc0
    ensures Te1Entry(x) == Pack(R.Te1(x))
  {
  }

  lemma Te1Literal(x: byte)
    ensures Te1Entry(x) == Pack(R.Te1(x))
  {
    hide *;
    if x < 0x40 {
      Te1First(x);
    } else if x < 0x80 {
      Te1Second(x);
    } else if x < 0xc0 {
      Te1Third(x);
    } else {
      Te1Fourth(x);
    }
  }

  function Te2Entry(x: byte): bv32 {
    if x < 0x04 then (if x < 0x02 then (if x == 0x00 then 0x63a5c663 else 0x7c84f87c) else if x == 0x02 then 0x7799ee77 else 0x7b8df67b)
    else if x < 0x08 then (if x < 0x06 then (if x == 0x04 then 0xf20dfff2 else 0x6bbdd66b) else if x == 0x06 then 0x6fb1de6f else 0xc55491c5)
    else if x < 0x0c then (if x < 0x0a then (if x == 0x08 then 0x30506030 else 0x01030201) else if x == 0x0a then 0x67a9ce67 else 0x2b7d562b)
    else if x < 0x10 then (if x < 0x0e then (if x == 0x0c then 0xfe19e7fe else 0xd762b5d7) else if x == 0x0e then 0xabe64dab else 0x769aec76)
    else if x < 0x14 then (if x < 0x12 then (if x == 0x10 then 0xca458fca else 0x829d1f82) else if x == 0x12 then 0xc94089c9 else 0x7d87fa7d)
    else if x < 0x18 then (if x < 0x16 then (if x == 0x14 then 0xfa15effa else 0x59ebb259) else if x == 0x16 then 0x47c98e47 else 0xf00bfbf0)
    else if x < 0x1c then (if x < 0x1a then (if x == 0x18 then 0xadec41ad else 0xd467b3d4) else if x == 0x1a then 0xa2fd5fa2 else 0xafea45af)
    else if x < 0x20 then (if x < 0x1e then (if x == 0x1c then 0x9cbf239c else 0xa4f753a4) else if x == 0x1e then 0x7296e472 else 0xc05b9bc0)
    else if x < 0x24 then (if x < 0x22 then (if x == 0x20 then 0xb7c275b7 else 0xfd1ce1fd) else if x == 0x22 then 0x93ae3d93 else 0x266a4c26)
    else if x < 0x28 then (if x < 0x26 then (if x == 0x24 then 0x365a6c36 else 0x3f417e3f) else if x == 0x26 then 0xf702f5f7 else 0xcc4f83cc)
    else if x < 0x2c then (if x < 0x2a then (if x == 0x28 then 0x345c6834 else 0xa5f451a5) else if x == 0x2a then 0xe534d1e5 else 0xf108f9f1)
    else if x < 0x30 then (if x < 0x2e then (if x == 0x2c then 0x7193e271 else 0xd873abd8) else if x == 0x2e then 0x31536231 else 0x153f2a15)
    else if x < 0x34 then (if x < 0x32 then (if x == 0x30 then 0x040c0804 else 0xc75295c7) else if x == 0x32 then 0x23654623 else 0xc35e9dc3)
    else if x < 0x38 then (if x < 0x36 then (if x == 0x34 then 0x18283018 else 0x96a13796) else if x == 0x36 then 0x050f0a05 else 0x9ab52f9a)
    else if x < 0x3c then (if x < 0x3a then (if x == 0x38 then 0x07090e07 else 0x12362412) else if x == 0x3a then 0x809b1b80 else 0xe23ddfe2)
    else if x < 0x40 then (if x < 0x3e then (if x == 0x3c then 0xeb26cdeb else 0x27694e27) else if x == 0x3e then 0xb2cd7fb2 else 0x759fea75)
    else if x < 0x44 then (if x < 0x42 then (if x == 0x40 then 0x091b1209 else 0x839e1d83) else if x == 0x42 then 0x2c74582c else 0x1a2e341a)
    else if x < 0x48 then (if x < 0x46 then (if x == 0x44 then 0x1b2d361b else 0x6eb2dc6e) else if x == 0x46 then 0x5aeeb45a else 0xa0fb5ba0)
    else if x < 0x4c then (if x < 0x4a then (if x == 0x48 then 0x52f6a452 else 0x3b4d763b) else if x == 0x4a then 0xd661b7d6 else 0xb3ce7db3)
    else if x < 0x50 then (if x < 0x4e then (if x == 0x4c then 0x297b5229 else 0xe33edde3) else if x == 0x4e then 0x2f715e2f else 0x84971384)
    else if x < 0x54 then (if x < 0x52 then (if x == 0x50 then 0x53f5a653 else 0xd168b9d1) else if x == 0x52 then 0x00000000 else 0xed2cc1ed)
    else if x < 0x58 then (if x < 0x56 then (if x == 0x54 then 0x20604020 else 0xfc1fe3fc) else if x == 0x56 then 0xb1c879b1 else 0x5bedb65b)
    else if x < 0x5c then (if x < 0x5a then (if x == 0x58 then 0x6abed46a else 0xcb468dcb) else if x == 0x5a then 0xbed967be else 0x394b7239)
    else if x < 0x60 then (if x < 0x5e then (if x == 0x5c then 0x4ade944a else 0x4cd4984c) else if x == 0x5e then 0x58e8b058 else 0xcf4a85cf)
    else if x < 0x64 then (if x < 0x62 then (if x == 0x60 then 0xd06bbbd0 else 0xef2ac5ef) else if x == 0x62 then 0xaae54faa else 0xfb16edfb)
    else if x < 0x68 then (if x < 0x66 then (if x == 0x64 then 0x43c58643 else 0x4dd79a4d) else if x == 0x66 then 0x33556633 else 0x85941185)
    else if x < 0x6c then (if x < 0x6a then (if x == 0x68 then 0x45cf8a45 else 0xf910e9f9) else if x == 0x6a then 0x02060402 else 0x7f81fe7f)
    else if x < 0x70 then (if x < 0x6e then (if x == 0x6c then 0x50f0a050 else 0x3c44783c) else if x == 0x6e then 0x9fba259f else 0xa8e34ba8)
    else if x < 0x74 then (if x < 0x72 then (if x == 0x70 then 0x51f3a251 else 0xa3fe5da3) else if x == 0x72 then 0x40c08040 else 0x8f8a058f)
    else if x < 0x78 then (if x < 0x76 then (if x == 0x74 then 0x92ad3f92 else 0x9dbc219d) else if x == 0x76 then 0x38487038 else 0xf504f1f5)
    else if x < 0x7c then (if x < 0x7a then (if x == 0x78 then 0xbcdf63bc else 0xb6c177b6) else if x == 0x7a then 0xda75afda else 0x21634221)
    else if x < 0x80 then (if x < 0x7e then (if x == 0x7c then 0x10302010 else 0xff1ae5ff) else if x == 0x7e then 0xf30efdf3 else 0xd26dbfd2)
    else if x < 0x84 then (if x < 0x82 then (if x == 0x80 then 0xcd4c81cd else 0x0c14180c) else if x == 0x82 then 0x13352613 else 0xec2fc3ec)
    else if x < 0x88 then (if x < 0x86 then (if x == 0x84 then 0x5fe1be5f else 0x97a23597) else if x == 0x86 then 0x44cc8844 else 0x17392e17)
    else if x < 0x8c then (if x < 0x8a then (if x == 0x88 then 0xc45793c4 else 0xa7f255a7) else if x == 0x8a then 0x7e82fc7e else 0x3d477a3d)
    else if x < 0x90 then (if x < 0x8e then (if x == 0x8c then 0x64acc864 else 0x5de7ba5d) else if x == 0x8e then 0x192b3219 else 0x7395e673)
    else if x < 0x94 then (if x < 0x92 then (if x == 0x90 then 0x60a0c060 else 0x81981981) else if x == 0x92 then 0x4fd19e4f else 0xdc7fa3dc)
    else if x < 0x98 then (if x < 0x96 then (if x == 0x94 then 0x22664422 else 0x2a7e542a) else if x == 0x96 then 0x90ab3b90 else 0x88830b88)
    else if x < 0x9c then (if x < 0x9a then (if x == 0x98 then 0x46ca8c46 else 0xee29c7ee) else if x == 0x9a then 0xb8d36bb8 else 0x143c2814)
    else if x < 0xa0 then (if x < 0x9e then (if x == 0x9c then 0xde79a7de else 0x5ee2bc5e) else if x == 0x9e then 0x0b1d160b else 0xdb76addb)
    else if x < 0xa4 then (if x < 0xa2 then (if x == 0xa0 then 0xe03bdbe0 else 0x32566432) else if x == 0xa2 then 0x3a4e743a else 0x0a1e140a)
    else if x < 0xa8 then (if x < 0xa6 then (if x == 0xa4 then 0x49db9249 else 0x060a0c06) else if x == 0xa6 then 0x246c4824 else 0x5ce4b85c)
    else if x < 0xac then (if x < 0xaa then (if x == 0xa8 then 0xc25d9fc2 else 0xd36ebdd3) else if x == 0xaa then 0xacef43ac else 0x62a6c462)
    else if x < 0xb0 then (if x < 0xae then (if x == 0xac then 0x91a83991 else 0x95a43195) else if x == 0xae then 0xe437d3e4 else 0x798bf279)
    else if x < 0xb4 then (if x < 0xb2 then (if x == 0xb0 then 0xe732d5e7 else 0xc8438bc8) else if x == 0xb2 then 0x37596e37 else 0x6db7da6d)
    else if x < 0xb8 then (if x < 0xb6 then (if x == 0xb4 then 0x8d8c018d else 0xd564b1d5) else if x == 0xb6 then 0x4ed29c4e else 0xa9e049a9)
    else if x < 0xbc then (if x < 0xba then (if x == 0xb8 then 0x6cb4d86c else 0x56faac56) else if x == 0xba then 0xf407f3f4 else 0xea25cfea)
    else if x < 0xc0 then (if x < 0xbe then (if x == 0xbc then 0x65afca65 else 0x7a8ef47a) else if x == 0xbe then 0xaee947ae else 0x08181008)
    else if x < 0xc4 then (if x < 0xc2 then (if x == 0xc0 then 0xbad56fba else 0x7888f078) else if x == 0xc2 then 0x256f4a25 else 0x2e725c2e)
    else if x < 0xc8 then (if x < 0xc6 then (if x == 0xc4 then 0x1c24381c else 0xa6f157a6) else if x == 0xc6 then 0xb4c773b4 else 0xc65197c6)
    else if x < 0xcc then (if x < 0xca then (if x == 0xc8 then 0xe823cbe8 else 0xdd7ca1dd) else if x == 0xca then 0x749ce874 else 0x1f213e1f)
    else if x < 0xd0 then (if x < 0xce then (if x == 0xcc then 0x4bdd964b else 0xbddc61bd) else if x == 0xce then 0x8b860d8b else 0x8a850f8a)
    else if x < 0xd4 then (if x < 0xd2 then (if x == 0xd0 then 0x7090e070 else 0x3e427c3e) else if x == 0xd2 then 0xb5c471b5 else 0x66aacc66)
    else if x < 0xd8 then (if x < 0xd6 then (if x == 0xd4 then 0x48d89048 else 0x03050603) else if x == 0xd6 then 0xf601f7f6 else 0x0e121c0e)
    else if x < 0xdc then (if x < 0xda then (if x == 0xd8 then 0x61a3c261 else 0x355f6a35) else if x == 0xda then 0x57f9ae57 else 0xb9d069b9)
    else if x < 0xe0 then (if x < 0xde then (if x == 0xdc then 0x86911786 else 0xc15899c1) else if x == 0xde then 0x1d273a1d else 0x9eb9279e)
    else if x < 0xe4 then (if x < 0xe2 then (if x == 0xe0 then 0xe138d9e1 else 0xf813ebf8) else if x == 0xe2 then 0x98b32b98 else 0x11332211)
    else if x < 0xe8 then (if x < 0xe6 then (if x == 0xe4 then 0x69bbd269 else 0xd970a9d9) else if x == 0xe6 then 0x8e89078e else 0x94a73394)
    else if x < 0xec then (if x < 0xea then (if x == 0xe8 then 0x9bb62d9b else 0x1e223c1e) else if x == 0xea then 0x87921587 else 0xe920c9e9)
    else if x < 0xf0 then (if x < 0xee then (if x == 0xec then 0xce4987ce else 0x55ffaa55) else if x == 0xee then 0x28785028 else 0xdf7aa5df)
    else if x < 0xf4 then (if x < 0xf2 then (if x == 0xf0 then 0x8c8f038c else 0xa1f859a1) else if x == 0xf2 then 0x89800989 else 0x0d171a0d)
    else if x < 0xf8 then (if x < 0xf6 then (if x == 0xf4 then 0xbfda65bf else 0xe631d7e6) else if x == 0xf6 then 0x42c68442 else 0x68b8d068)
    else if x < 0xfc then (if x < 0xfa then (if x == 0xf8 then 0x41c38241 else 0x99b02999) else if x == 0xfa then 0x2d775a2d else 0x0f111e0f)
    else (if x < 0xfe then (if x == 0xfc then 0xb0cb7bb0 else 0x54fca854) else if x == 0xfe then 0xbbd66dbb else 0x163a2c16)
  }

  lemma Te2First(x: byte)
    requires x < 0x40
    ensures Te2Entry(x) == Pack(R.Te2(x))
  {
  }

  lemma Te2Second(x: byte)
    requires 0x40 <= x < 0x80
    ensures Te2Entry(x) == Pack(R.Te2(x))
  {
  }

  lemma Te2Third(x: byte)
    requires 0x80 <= x < 0xc0
    ensures Te2Entry(x) == Pack(R.Te2(x))
  {
  }

  lemma Te2Fourth(x: byte)
    requires x >= 0xc0
    ensures Te2Entry(x) == Pack(R.Te2(x))
  {
  }

  lemma Te2Literal(x: byte)
    ensures Te2Entry(x) == Pack(R.Te2(x))
  {
    hide *;
    if x < 0x40 {
      Te2First(x);
    } else if x < 0x80 {
      Te2Second(x);
    } else if x < 0xc0 {
      Te2Third(x);
    } else {
      Te2Fourth(x);
    }
  }

  function Te3Entry(x: byte): bv32 {
    if x < 0x04 then (if x < 0x02 then (if x == 0x00 then 0x6363a5c6 else 0x7c7c84f8) else if x == 0x02 then 0x777799ee else 0x7b7b8df6)
    else if x < 0x08 then (if x < 0x06 then (if x == 0x04 then 0xf2f20dff else 0x6b6bbdd6) else if x == 0x06 then 0x6f6fb1de else 0xc5c55491)
    else if x < 0x0c then (if x < 0x0a then (if x == 0x08 then 0x30305060 else 0x01010302) else if x == 0x0a then 0x6767a9ce else 0x2b2b7d56)
    else if x < 0x10 then (if x < 0x0e then (if x == 0x0c then 0xfefe19e7 else 0xd7d762b5) else if x == 0x0e then 0xababe64d else 0x76769aec)
    else if x < 0x14 then (if x < 0x12 then (if x == 0x10 then 0xcaca458f else 0x82829d1f) else if x == 0x12 then 0xc9c94089 else 0x7d7d87fa)
    else if x < 0x18 then (if x < 0x16 then (if x == 0x14 then 0xfafa15ef else 0x5959ebb2) else if x == 0x16 then 0x4747c98e else 0xf0f00bfb)
    else if x < 0x1c then (if x < 0x1a then (if x == 0x18 then 0xadadec41 else 0xd4d467b3) else if x == 0x1a then 0xa2a2fd5f else 0xafafea45)
    else if x < 0x20 then (if x < 0x1e then (if x == 0x1c then 0x9c9cbf23 else 0xa4a4f753) else if x == 0x1e then 0x727296e4 else 0xc0c05b9b)
    else if x < 0x24 then (if x < 0x22 then (if x == 0x20 then 0xb7b7c275 else 0xfdfd1ce1) else if x == 0x22 then 0x9393ae3d else 0x26266a4c)
    else if x < 0x28 then (if x < 0x26 then (if x == 0x24 then 0x36365a6c else 0x3f3f417e) else if x == 0x26 then 0xf7f702f5 else 0xcccc4f83)
    else if x < 0x2c then (if x < 0x2a then (if x == 0x28 then 0x34345c68 else 0xa5a5f451) else if x == 0x2a then 0xe5e534d1 else 0xf1f108f9)
    else if x < 0x30 then (if x < 0x2e then (if x == 0x2c then 0x717193e2 else 0xd8d873ab) else if x == 0x2e then 0x31315362 else 0x15153f2a)
    else if x < 0x34 then (if x < 0x32 then (if x == 0x30 then 0x04040c08 else 0xc7c75295) else if x == 0x32 then 0x23236546 else 0xc3c35e9d)
    else if x < 0x38 then (if x < 0x36 then (if x == 0x34 then 0x18182830 else 0x9696a137) else if x == 0x36 then 0x05050f0a else 0x9a9ab52f)
    else if x < 0x3c then (if x < 0x3a then (if x == 0x38 then 0x0707090e else 0x12123624) else if x == 0x3a then 0x80809b1b else 0xe2e23ddf)
    else if x < 0x40 then (if x < 0x3e then (if x == 0x3c then 0xebeb26cd else 0x2727694e) else if x == 0x3e then 0xb2b2cd7f else 0x75759fea)
    else if x < 0x44 then (if x < 0x42 then (if x == 0x40 then 0x09091b12 else 0x83839e1d) else if x == 0x42 then 0x2c2c7458 else 0x1a1a2e34)
    else if x < 0x48 then (if x < 0x46 then (if x == 0x44 then 0x1b1b2d36 else 0x6e6eb2dc) else if x == 0x46 then 0x5a5aeeb4 else 0xa0a0fb5b)
    else if x < 0x4c then (if x < 0x4a then (if x == 0x48 then 0x5252f6a4 else 0x3b3b4d76) else if x == 0x4a then 0xd6d661b7 else 0xb3b3ce7d)
    else if x < 0x50 then (if x < 0x4e then (if x == 0x4c then 0x29297b52 else 0xe3e33edd) else if x == 0x4e then 0x2f2f715e else 0x84849713)
    else if x < 0x54 then (if x < 0x52 then (if x == 0x50 then 0x5353f5a6 else 0xd1d168b9) else if x == 0x52 then 0x00000000 else 0xeded2cc1)
    else if x < 0x58 then (if x < 0x56 then (if x == 0x54 then 0x20206040 else 0xfcfc1fe3) else if x == 0x56 then 0xb1b1c879 else 0x5b5bedb6)
    else if x < 0x5c then (if x < 0x5a then (if x == 0x58 then 0x6a6abed4 else 0xcbcb468d) else if x == 0x5a then 0xbebed967 else 0x39394b72)
    else if x < 0x60 then (if x < 0x5e then (if x == 0x5c then 0x4a4ade94 else 0x4c4cd498) else if x == 0x5e then 0x5858e8b0 else 0xcfcf4a85)
    else if x < 0x64 then (if x < 0x62 then (if x == 0x60 then 0xd0d06bbb else 0xefef2ac5) else if x == 0x62 then 0xaaaae54f else 0xfbfb16ed)
    else if x < 0x68 then (if x < 0x66 then (if x == 0x64 then 0x4343c586 else 0x4d4dd79a) else if x == 0x66 then 0x33335566 else 0x85859411)
    else if x < 0x6c then (if x < 0x6a then (if x == 0x68 then 0x4545cf8a else 0xf9f910e9) else if x == 0x6a then 0x02020604 else 0x7f7f81fe)
    else if x < 0x70 then (if x < 0x6e then (if x == 0x6c then 0x5050f0a0 else 0x3c3c4478) else if x == 0x6e then 0x9f9fba25 else 0xa8a8e34b)
    else if x < 0x74 then (if x < 0x72 then (if x == 0x70 then 0x5151f3a2 else 0xa3a3fe5d) else if x == 0x72 then 0x4040c080 else 0x8f8f8a05)
    else if x < 0x78 then (if x < 0x76 then (if x == 0x74 then 0x9292ad3f else 0x9d9dbc21) else if x == 0x76 then 0x38384870 else 0xf5f504f1)
    else if x < 0x7c then (if x < 0x7a then (if x == 0x78 then 0xbcbcdf63 else 0xb6b6c177) else if x == 0x7a then 0xdada75af else 0x21216342)
    else if x < 0x80 then (if x < 0x7e then (if x == 0x7c then 0x10103020 else 0xffff1ae5) else if x == 0x7e then 0xf3f30efd else 0xd2d26dbf)
    else if x < 0x84 then (if x < 0x82 then (if x == 0x80 then 0xcdcd4c81 else 0x0c0c1418) else if x == 0x82 then 0x13133526 else 0xecec2fc3)
    else if x < 0x88 then (if x < 0x86 then (if x == 0x84 then 0x5f5fe1be else 0x9797a235) else if x == 0x86 then 0x4444cc88 else 0x1717392e)
    else if x < 0x8c then (if x < 0x8a then (if x == 0x88 then 0xc4c45793 else 0xa7a7f255) else if x == 0x8a then 0x7e7e82fc else 0x3d3d477a)
    else if x < 0x90 then (if x < 0x8e then (if x == 0x8c then 0x6464acc8 else 0x5d5de7ba) else if x == 0x8e then 0x19192b32 else 0x737395e6)
    else if x < 0x94 then (if x < 0x92 then (if x == 0x90 then 0x6060a0c0 else 0x81819819) else if x == 0x92 then 0x4f4fd19e else 0xdcdc7fa3)
    else if x < 0x98 then (if x < 0x96 then (if x == 0x94 then 0x22226644 else 0x2a2a7e54) else if x == 0x96 then 0x9090ab3b else 0x8888830b)
    else if x < 0x9c then (if x < 0x9a then (if x == 0x98 then 0x4646ca8c else 0xeeee29c7) else if x == 0x9a then 0xb8b8d36b else 0x14143c28)
    else if x < 0xa0 then (if x < 0x9e then (if x == 0x9c then 0xdede79a7 else 0x5e5ee2bc) else if x == 0x9e then 0x0b0b1d16 else 0xdbdb76ad)
    else if x < 0xa4 then (if x < 0xa2 then (if x == 0xa0 then 0xe0e03bdb else 0x32325664) else if x == 0xa2 then 0x3a3a4e74 else 0x0a0a1e14)
    else if x < 0xa8 then (if x < 0xa6 then (if x == 0xa4 then 0x4949db92 else 0x06060a0c) else if x == 0xa6 then 0x24246c48 else 0x5c5ce4b8)
    else if x < 0xac then (if x < 0xaa then (if x == 0xa8 then 0xc2c25d9f else 0xd3d36ebd) else if x == 0xaa then 0xacacef43 else 0x6262a6c4)
    else if x < 0xb0 then (if x < 0xae then (if x == 0xac then 0x9191a839 else 0x9595a431) else if x == 0xae then 0xe4e437d3 else 0x79798bf2)
    else if x < 0xb4 then (if x < 0xb2 then (if x == 0xb0 then 0xe7e732d5 else 0xc8c8438b) else if x == 0xb2 then 0x3737596e else 0x6d6db7da)
    else if x < 0xb8 then (if x < 0xb6 then (if x == 0xb4 then 0x8d8d8c01 else 0xd5d564b1) else if x == 0xb6 then 0x4e4ed29c else 0xa9a9e049)
    else if x < 0xbc then (if x < 0xba then (if x == 0xb8 then 0x6c6cb4d8 else 0x5656faac) else if x == 0xba then 0xf4f407f3 else 0xeaea25cf)
    else if x < 0xc0 then (if x < 0xbe then (if x == 0xbc then 0x6565afca else 0x7a7a8ef4) else if x == 0xbe then 0xaeaee947 else 0x08081810)
    else if x < 0xc4 then (if x < 0xc2 then (if x == 0xc0 then 0xbabad56f else 0x787888f0) else if x == 0xc2 then 0x25256f4a else 0x2e2e725c)
    else if x < 0xc8 then (if x < 0xc6 then (if x == 0xc4 then 0x1c1c2438 else 0xa6a6f157) else if x == 0xc6 then 0xb4b4c773 else 0xc6c65197)
    else if x < 0xcc then (if x < 0xca then (if x == 0xc8 then 0xe8e823cb else 0xdddd7ca1) else if x == 0xca then 0x74749ce8 else 0x1f1f213e)
    else if x < 0xd0 then (if x < 0xce then (if x == 0xcc then 0x4b4bdd96 else 0xbdbddc61) else if x == 0xce then 0x8b8b860d else 0x8a8a850f)
    else if x < 0xd4 then (if x < 0xd2 then (if x == 0xd0 then 0x707090e0 else 0x3e3e427c) else if x == 0xd2 then 0xb5b5c471 else 0x6666aacc)
    else if x < 0xd8 then (if x < 0xd6 then (if x == 0xd4 then 0x4848d890 else 0x03030506) else if x == 0xd6 then 0xf6f601f7 else 0x0e0e121c)
    else if x < 0xdc then (if x < 0xda then (if x == 0xd8 then 0x6161a3c2 else 0x35355f6a) else if x == 0xda then 0x5757f9ae else 0xb9b9d069)
    else if x < 0xe0 then (if x < 0xde then (if x == 0xdc then 0x86869117 else 0xc1c15899) else if x == 0xde then 0x1d1d273a else 0x9e9eb927)
    else if x < 0xe4 then (if x < 0xe2 then (if x == 0xe0 then 0xe1e138d9 else 0xf8f813eb) else if x == 0xe2 then 0x9898b32b else 0x11113322)
    else if x < 0xe8 then (if x < 0xe6 then (if x == 0xe4 then 0x6969bbd2 else 0xd9d970a9) else if x == 0xe6 then 0x8e8e8907 else 0x9494a733)
    else if x < 0xec then (if x < 0xea then (if x == 0xe8 then 0x9b9bb62d else 0x1e1e223c) else if x == 0xea then 0x87879215 else 0xe9e920c9)
    else if x < 0xf0 then (if x < 0xee then (if x == 0xec then 0xcece4987 else 0x5555ffaa) else if x == 0xee then 0x28287850 else 0xdfdf7aa5)
    else if x < 0xf4 then (if x < 0xf2 then (if x == 0xf0 then 0x8c8c8f03 else 0xa1a1f859) else if x == 0xf2 then 0x89898009 else 0x0d0d171a)
    else if x < 0xf8 then (if x < 0xf6 then (if x == 0xf4 then 0xbfbfda65 else 0xe6e631d7) else if x == 0xf6 then 0x4242c684 else 0x6868b8d0)
    else if x < 0xfc then (if x < 0xfa then (if x == 0xf8 then 0x4141c382 else 0x9999b029) else if x == 0xfa then 0x2d2d775a else 0x0f0f111e)
    else (if x < 0xfe then (if x == 0xfc then 0xb0b0cb7b else 0x5454fca8) else if x == 0xfe then 0xbbbbd66d else 0x16163a2c)
  }

  lemma Te3First(x: byte)
    requires x < 0x40
    ensures Te3Entry(x) == Pack(R.Te3(x))
  {
  }

  lemma Te3Second(x: byte)
    requires 0x40 <= x < 0x80
    ensures Te3Entry(x) == Pack(R.Te3(x))
  {
  }

  lemma Te3Third(x: byte)
    requires 0x80 <= x < 0xc0
    ensures Te3Entry(x) == Pack(R.Te3(x))
  {
  }

  lemma Te3Fourth(x: byte)
    requires x >= 0xc0
    ensures Te3Entry(x) == Pack(R.Te3(x))
  {
  }

  lemma Te3Literal(x: byte)
    ensures Te3Entry(x) == Pack(R.Te3(x))
  {
    hide *;
    if x < 0x40 {
      Te3First(x);
    } else if x < 0x80 {
      Te3Second(x);
    } else if x < 0xc0 {
      Te3Third(x);
    } else {
      Te3Fourth(x);
    }
  }

  function Te4Entry(x: byte): bv32 {
    if x < 0x04 then (if x < 0x02 then (if x == 0x00 then 0x63636363 else 0x7c7c7c7c) else if x == 0x02 then 0x77777777 else 0x7b7b7b7b)
    else if x < 0x08 then (if x < 0x06 then (if x == 0x04 then 0xf2f2f2f2 else 0x6b6b6b6b) else if x == 0x06 then 0x6f6f6f6f else 0xc5c5c5c5)
    else if x < 0x0c then (if x < 0x0a then (if x == 0x08 then 0x30303030 else 0x01010101) else if x == 0x0a then 0x67676767 else 0x2b2b2b2b)
    else if x < 0x10 then (if x < 0x0e then (if x == 0x0c then 0xfefefefe else 0xd7d7d7d7) else if x == 0x0e then 0xabababab else 0x76767676)
    else if x < 0x14 then (if x < 0x12 then (if x == 0x10 then 0xcacacaca else 0x82828282) else if x == 0x12 then 0xc9c9c9c9 else 0x7d7d7d7d)
    else if x < 0x18 then (if x < 0x16 then (if x == 0x14 then 0xfafafafa else 0x59595959) else if x == 0x16 then 0x47474747 else 0xf0f0f0f0)
    else if x < 0x1c then (if x < 0x1a then (if x == 0x18 then 0xadadadad else 0xd4d4d4d4) else if x == 0x1a then 0xa2a2a2a2 else 0xafafafaf)
    else if x < 0x20 then (if x < 0x1e then (if x == 0x1c then 0x9c9c9c9c else 0xa4a4a4a4) else if x == 0x1e then 0x72727272 else 0xc0c0c0c0)
    else if x < 0x24 then (if x < 0x22 then (if x == 0x20 then 0xb7b7b7b7 else 0xfdfdfdfd) else if x == 0x22 then 0x93939393 else 0x26262626)
    else if x < 0x28 then (if x < 0x26 then (if x == 0x24 then 0x36363636 else 0x3f3f3f3f) else if x == 0x26 then 0xf7f7f7f7 else 0xcccccccc)
    else if x < 0x2c then (if x < 0x2a then (if x == 0x28 then 0x34343434 else 0xa5a5a5a5) else if x == 0x2a then 0xe5e5e5e5 else 0xf1f1f1f1)
    else if x < 0x30 then (if x < 0x2e then (if x == 0x2c then 0x71717171 else 0xd8d8d8d8) else if x == 0x2e then 0x31313131 else 0x15151515)
    else if x < 0x34 then (if x < 0x32 then (if x == 0x30 then 0x04040404 else 0xc7c7c7c7) else if x == 0x32 then 0x23232323 else 0xc3c3c3c3)
    else if x < 0x38 then (if x < 0x36 then (if x == 0x34 then 0x18181818 else 0x96969696) else if x == 0x36 then 0x05050505 else 0x9a9a9a9a)
    else if x < 0x3c then (if x < 0x3a then (if x == 0x38 then 0x07070707 else 0x12121212) else if x == 0x3a then 0x80808080 else 0xe2e2e2e2)
    else if x < 0x40 then (if x < 0x3e then (if x == 0x3c then 0xebebebeb else 0x27272727) else if x == 0x3e then 0xb2b2b2b2 else 0x75757575)
    else if x < 0x44 then (if x < 0x42 then (if x == 0x40 then 0x09090909 else 0x83838383) else if x == 0x42 then 0x2c2c2c2c else 0x1a1a1a1a)
    else if x < 0x48 then (if x < 0x46 then (if x == 0x44 then 0x1b1b1b1b else 0x6e6e6e6e) else if x == 0x46 then 0x5a5a5a5a else 0xa0a0a0a0)
    else if x < 0x4c then (if x < 0x4a then (if x == 0x48 then 0x52525252 else 0x3b3b3b3b) else if x == 0x4a then 0xd6d6d6d6 else 0xb3b3b3b3)
    else if x < 0x50 then (if x < 0x4e then (if x == 0x4c then 0x29292929 else 0xe3e3e3e3) else if x == 0x4e then 0x2f2f2f2f else 0x84848484)
    else if x < 0x54 then (if x < 0x52 then (if x == 0x50 then 0x53535353 else 0xd1d1d1d1) else if x == 0x52 then 0x00000000 else 0xedededed)
    else if x < 0x58 then (if x < 0x56 then (if x == 0x54 then 0x20202020 else 0xfcfcfcfc) else if x == 0x56 then 0xb1b1b1b1 else 0x5b5b5b5b)
    else if x < 0x5c then (if x < 0x5a then (if x == 0x58 then 0x6a6a6a6a else 0xcbcbcbcb) else if x == 0x5a then 0xbebebebe else 0x39393939)
    else if x < 0x60 then (if x < 0x5e then (if x == 0x5c then 0x4a4a4a4a else 0x4c4c4c4c) else if x == 0x5e then 0x58585858 else 0xcfcfcfcf)
    else if x < 0x64 then (if x < 0x62 then (if x == 0x60 then 0xd0d0d0d0 else 0xefefefef) else if x == 0x62 then 0xaaaaaaaa else 0xfbfbfbfb)
    else if x < 0x68 then (if x < 0x66 then (if x == 0x64 then 0x43434343 else 0x4d4d4d4d) else if x == 0x66 then 0x33333333 else 0x85858585)
    else if x < 0x6c then (if x < 0x6a then (if x == 0x68 then 0x45454545 else 0xf9f9f9f9) else if x == 0x6a then 0x02020202 else 0x7f7f7f7f)
    else if x < 0x70 then (if x < 0x6e then (if x == 0x6c then 0x50505050 else 0x3c3c3c3c) else if x == 0x6e then 0x9f9f9f9f else 0xa8a8a8a8)
    else if x < 0x74 then (if x < 0x72 then (if x == 0x70 then 0x51515151 else 0xa3a3a3a3) else if x == 0x72 then 0x40404040 else 0x8f8f8f8f)
    else if x < 0x78 then (if x < 0x76 then (if x == 0x74 then 0x92929292 else 0x9d9d9d9d) else if x == 0x76 then 0x38383838 else 0xf5f5f5f5)
    else if x < 0x7c then (if x < 0x7a then (if x == 0x78 then 0xbcbcbcbc else 0xb6b6b6b6) else if x == 0x7a then 0xdadadada else 0x21212121)
    else if x < 0x80 then (if x < 0x7e then (if x == 0x7c then 0x10101010 else 0xffffffff) else if x == 0x7e then 0xf3f3f3f3 else 0xd2d2d2d2)
    else if x < 0x84 then (if x < 0x82 then (if x == 0x80 then 0xcdcdcdcd else 0x0c0c0c0c) else if x == 0x82 then 0x13131313 else 0xecececec)
    else if x < 0x88 then (if x < 0x86 then (if x == 0x84 then 0x5f5f5f5f else 0x97979797) else if x == 0x86 then 0x44444444 else 0x17171717)
    else if x < 0x8c then (if x < 0x8a then (if x == 0x88 then 0xc4c4c4c4 else 0xa7a7a7a7) else if x == 0x8a then 0x7e7e7e7e else 0x3d3d3d3d)
    else if x < 0x90 then (if x < 0x8e then (if x == 0x8c then 0x64646464 else 0x5d5d5d5d) else if x == 0x8e then 0x19191919 else 0x73737373)
    else if x < 0x94 then (if x < 0x92 then (if x == 0x90 then 0x60606060 else 0x81818181) else if x == 0x92 then 0x4f4f4f4f else 0xdcdcdcdc)
    else if x < 0x98 then (if x < 0x96 then (if x == 0x94 then 0x22222222 else 0x2a2a2a2a) else if x == 0x96 then 0x90909090 else 0x88888888)
    else if x < 0x9c then (if x < 0x9a then (if x == 0x98 then 0x46464646 else 0xeeeeeeee) else if x == 0x9a then 0xb8b8b8b8 else 0x14141414)
    else if x < 0xa0 then (if x < 0x9e then (if x == 0x9c then 0xdededede else 0x5e5e5e5e) else if x == 0x9e then 0x0b0b0b0b else 0xdbdbdbdb)
    else if x < 0xa4 then (if x < 0xa2 then (if x == 0xa0 then 0xe0e0e0e0 else 0x32323232) else if x == 0xa2 then 0x3a3a3a3a else 0x0a0a0a0a)
    else if x < 0xa8 then (if x < 0xa6 then (if x == 0xa4 then 0x49494949 else 0x06060606) else if x == 0xa6 then 0x24242424 else 0x5c5c5c5c)
    else if x < 0xac then (if x < 0xaa then (if x == 0xa8 then 0xc2c2c2c2 else 0xd3d3d3d3) else if x == 0xaa then 0xacacacac else 0x62626262)
    else if x < 0xb0 then (if x < 0xae then (if x == 0xac then 0x91919191 else 0x95959595) else if x == 0xae then 0xe4e4e4e4 else 0x79797979)
    else if x < 0xb4 then (if x < 0xb2 then (if x == 0xb0 then 0xe7e7e7e7 else 0xc8c8c8c8) else if x == 0xb2 then 0x37373737 else 0x6d6d6d6d)
    else if x < 0xb8 then (if x < 0xb6 then (if x == 0xb4 then 0x8d8d8d8d else 0xd5d5d5d5) else if x == 0xb6 then 0x4e4e4e4e else 0xa9a9a9a9)
    else if x < 0xbc then (if x < 0xba then (if x == 0xb8 then 0x6c6c6c6c else 0x56565656) else if x == 0xba then 0xf4f4f4f4 else 0xeaeaeaea)
    else if x < 0xc0 then (if x < 0xbe then (if x == 0xbc then 0x65656565 else 0x7a7a7a7a) else if x == 0xbe then 0xaeaeaeae else 0x08080808)
    else if x < 0xc4 then (if x < 0xc2 then (if x == 0xc0 then 0xbabababa else 0x78787878) else if x == 0xc2 then 0x25252525 else 0x2e2e2e2e)
    else if x < 0xc8 then (if x < 0xc6 then (if x == 0xc4 then 0x1c1c1c1c else 0xa6a6a6a6) else if x == 0xc6 then 0xb4b4b4b4 else 0xc6c6c6c6)
    else if x < 0xcc then (if x < 0xca then (if x == 0xc8 then 0xe8e8e8e8 else 0xdddddddd) else if x == 0xca then 0x74747474 else 0x1f1f1f1f)
    else if x < 0xd0 then (if x < 0xce then (if x == 0xcc then 0x4b4b4b4b else 0xbdbdbdbd) else if x == 0xce then 0x8b8b8b8b else 0x8a8a8a8a)
    else if x < 0xd4 then (if x < 0xd2 then (if x == 0xd0 then 0x70707070 else 0x3e3e3e3e) else if x == 0xd2 then 0xb5b5b5b5 else 0x66666666)
    else if x < 0xd8 then (if x < 0xd6 then (if x == 0xd4 then 0x48484848 else 0x03030303) else if x == 0xd6 then 0xf6f6f6f6 else 0x0e0e0e0e)
    else if x < 0xdc then (if x < 0xda then (if x == 0xd8 then 0x61616161 else 0x35353535) else if x == 0xda then 0x57575757 else 0xb9b9b9b9)
    else if x < 0xe0 then (if x < 0xde then (if x == 0xdc then 0x86868686 else 0xc1c1c1c1) else if x == 0xde then 0x1d1d1d1d else 0x9e9e9e9e)
    else if x < 0xe4 then (if x < 0xe2 then (if x == 0xe0 then 0xe1e1e1e1 else 0xf8f8f8f8) else if x == 0xe2 then 0x98989898 else 0x11111111)
    else if x < 0xe8 then (if x < 0xe6 then (if x == 0xe4 then 0x69696969 else 0xd9d9d9d9) else if x == 0xe6 then 0x8e8e8e8e else 0x94949494)
    else if x < 0xec then (if x < 0xea then (if x == 0xe8 then 0x9b9b9b9b else 0x1e1e1e1e) else if x == 0xea then 0x87878787 else 0xe9e9e9e9)
    else if x < 0xf0 then (if x < 0xee then (if x == 0xec then 0xcececece else 0x55555555) else if x == 0xee then 0x28282828 else 0xdfdfdfdf)
    else if x < 0xf4 then (if x < 0xf2 then (if x == 0xf0 then 0x8c8c8c8c else 0xa1a1a1a1) else if x == 0xf2 then 0x89898989 else 0x0d0d0d0d)
    else if x < 0xf8 then (if x < 0xf6 then (if x == 0xf4 then 0xbfbfbfbf else 0xe6e6e6e6) else if x == 0xf6 then 0x42424242 else 0x68686868)
    else if x < 0xfc then (if x < 0xfa then (if x == 0xf8 then 0x41414141 else 0x99999999) else if x == 0xfa then 0x2d2d2d2d else 0x0f0f0f0f)
    else (if x < 0xfe then (if x == 0xfc then 0xb0b0b0b0 else 0x54545454) else if x == 0xfe then 0xbbbbbbbb else 0x16161616)
  }

  lemma Te4First(x: byte)
    requires x < 0x40
    ensures Te4Entry(x) == Pack(R.Te4(x))
  {
  }

  lemma Te4Second(x: byte)
    requires 0x40 <= x < 0x80
    ensures Te4Entry(x) == Pack(R.Te4(x))
  {
  }

  lemma Te4Third(x: byte)
    requires 0x80 <= x < 0xc0
    ensures Te4Entry(x) == Pack(R.Te4(x))
  {
  }

  lemma Te4Fourth(x: byte)
    requires x >= 0xc0
    ensures Te4Entry(x) == Pack(R.Te4(x))
  {
  }

  lemma Te4Literal(x: byte)
    ensures Te4Entry(x) == Pack(R.Te4(x))
  {
    hide *;
    if x < 0x40 {
      Te4First(x);
    } else if x < 0x80 {
      Te4Second(x);
    } else if x < 0xc0 {
      Te4Third(x);
    } else {
      Te4Fourth(x);
    }
  }

  function Td0Entry(x: byte): bv32 {
    if x < 0x04 then (if x < 0x02 then (if x == 0x00 then 0x51f4a750 else 0x7e416553) else if x == 0x02 then 0x1a17a4c3 else 0x3a275e96)
    else if x < 0x08 then (if x < 0x06 then (if x == 0x04 then 0x3bab6bcb else 0x1f9d45f1) else if x == 0x06 then 0xacfa58ab else 0x4be30393)
    else if x < 0x0c then (if x < 0x0a then (if x == 0x08 then 0x2030fa55 else 0xad766df6) else if x == 0x0a then 0x88cc7691 else 0xf5024c25)
    else if x < 0x10 then (if x < 0x0e then (if x == 0x0c then 0x4fe5d7fc else 0xc52acbd7) else if x == 0x0e then 0x26354480 else 0xb562a38f)
    else if x < 0x14 then (if x < 0x12 then (if x == 0x10 then 0xdeb15a49 else 0x25ba1b67) else if x == 0x12 then 0x45ea0e98 else 0x5dfec0e1)
    else if x < 0x18 then (if x < 0x16 then (if x == 0x14 then 0xc32f7502 else 0x814cf012) else if x == 0x16 then 0x8d4697a3 else 0x6bd3f9c6)
    else if x < 0x1c then (if x < 0x1a then (if x == 0x18 then 0x038f5fe7 else 0x15929c95) else if x == 0x1a then 0xbf6d7aeb else 0x955259da)
    else if x < 0x20 then (if x < 0x1e then (if x == 0x1c then 0xd4be832d else 0x587421d3) else if x == 0x1e then 0x49e06929 else 0x8ec9c844)
    else if x < 0x24 then (if x < 0x22 then (if x == 0x20 then 0x75c2896a else 0xf48e7978) else if x == 0x22 then 0x99583e6b else 0x27b971dd)
    else if x < 0x28 then (if x < 0x26 then (if x == 0x24 then 0xbee14fb6 else 0xf088ad17) else if x == 0x26 then 0xc920ac66 else 0x7dce3ab4)
    else if x < 0x2c then (if x < 0x2a then (if x == 0x28 then 0x63df4a18 else 0xe51a3182) else if x == 0x2a then 0x97513360 else 0x62537f45)
    else if x < 0x30 then (if x < 0x2e then (if x == 0x2c then 0xb16477e0 else 0xbb6bae84) else if x == 0x2e then 0xfe81a01c else 0xf9082b94)
    else if x < 0x34 then (if x < 0x32 then (if x == 0x30 then 0x70486858 else 0x8f45fd19) else if x == 0x32 then 0x94de6c87 else 0x527bf8b7)
    else if x < 0x38 then (if x < 0x36 then (if x == 0x34 then 0xab73d323 else 0x724b02e2) else if x == 0x36 then 0xe31f8f57 else 0x6655ab2a)
    else if x < 0x3c then (if x < 0x3a then (if x == 0x38 then 0xb2eb2807 else 0x2fb5c203) else if x == 0x3a then 0x86c57b9a else 0xd33708a5)
    else if x < 0x40 then (if x < 0x3e then (if x == 0x3c then 0x302887f2 else 0x23bfa5b2) else if x == 0x3e then 0x02036aba else 0xed16825c)
    else if x < 0x44 then (if x < 0x42 then (if x == 0x40 then 0x8acf1c2b else 0xa779b492) else if x == 0x42 then 0xf307f2f0 else 0x4e69e2a1)
    else if x < 0x48 then (if x < 0x46 then (if x == 0x44 then 0x65daf4cd else 0x0605bed5) else if x == 0x46 then 0xd134621f else 0xc4a6fe8a)
    else if x < 0x4c then (if x < 0x4a then (if x == 0x48 then 0x342e539d else 0xa2f355a0) else if x == 0x4a then 0x058ae132 else 0xa4f6eb75)
    else if x < 0x50 then (if x < 0x4e then (if x == 0x4c then 0x0b83ec39 else 0x4060efaa) else if x == 0x4e then 0x5e719f06 else 0xbd6e1051)
    else if x < 0x54 then (if x < 0x52 then (if x == 0x50 then 0x3e218af9 else 0x96dd063d) else if x == 0x52 then 0xdd3e05ae else 0x4de6bd46)
    else if x < 0x58 then (if x < 0x56 then (if x == 0x54 then 0x91548db5 else 0x71c45d05) else if x == 0x56 then 0x0406d46f else 0x605015ff)
    else if x < 0x5c then (if x < 0x5a then (if x == 0x58 then 0x1998fb24 else 0xd6bde997) else if x == 0x5a then 0x894043cc else 0x67d99e77)
    else if x < 0x60 then (if x < 0x5e then (if x == 0x5c then 0xb0e842bd else 0x07898b88) else if x == 0x5e then 0xe7195b38 else 0x79c8eedb)
    else if x < 0x64 then (if x < 0x62 then (if x == 0x60 then 0xa17c0a47 else 0x7c420fe9) else if x == 0x62 then 0xf8841ec9 else 0x00000000)
    else if x < 0x68 then (if x < 0x66 then (if x == 0x64 then 0x09808683 else 0x322bed48) else if x == 0x66 then 0x1e1170ac else 0x6c5a724e)
    else if x < 0x6c then (if x < 0x6a then (if x == 0x68 then 0xfd0efffb else 0x0f853856) else if x == 0x6a then 0x3daed51e else 0x362d3927)
    else if x < 0x70 then (if x < 0x6e then (if x == 0x6c then 0x0a0fd964 else 0x685ca621) else if x == 0x6e then 0x9b5b54d1 else 0x24362e3a)
    else if x < 0x74 then (if x < 0x72 then (if x == 0x70 then 0x0c0a67b1 else 0x9357e70f) else if x == 0x72 then 0xb4ee96d2 else 0x1b9b919e)
    else if x < 0x78 then (if x < 0x76 then (if x == 0x74 then 0x80c0c54f else 0x61dc20a2) else if x == 0x76 then 0x5a774b69 else 0x1c121a16)
    else if x < 0x7c then (if x < 0x7a then (if x == 0x78 then 0xe293ba0a else 0xc0a02ae5) else if x == 0x7a then 0x3c22e043 else 0x121b171d)
    else if x < 0x80 then (if x < 0x7e then (if x == 0x7c then 0x0e090d0b else 0xf28bc7ad) else if x == 0x7e then 0x2db6a8b9 else 0x141ea9c8)
    else if x < 0x84 then (if x < 0x82 then (if x == 0x80 then 0x57f11985 else 0xaf75074c) else if x == 0x82 then 0xee99ddbb else 0xa37f60fd)
    else if x < 0x88 then (if x < 0x86 then (if x == 0x84 then 0xf701269f else 0x5c72f5bc) else if x == 0x86 then 0x44663bc5 else 0x5bfb7e34)
    else if x < 0x8c then (if x < 0x8a then (if x == 0x88 then 0x8b432976 else 0xcb23c6dc) else if x == 0x8a then 0xb6edfc68 else 0xb8e4f163)
    else if x < 0x90 then (if x < 0x8e then (if x == 0x8c then 0xd731dcca else 0x42638510) else if x == 0x8e then 0x13972240 else 0x84c61120)
    else if x < 0x94 then (if x < 0x92 then (if x == 0x90 then 0x854a247d else 0xd2bb3df8) else if x == 0x92 then 0xaef93211 else 0xc729a16d)
    else if x < 0x98 then (if x < 0x96 then (if x == 0x94 then 0x1d9e2f4b else 0xdcb230f3) else if x == 0x96 then 0x0d8652ec else 0x77c1e3d0)
    else if x < 0x9c then (if x < 0x9a then (if x == 0x98 then 0x2bb3166c else 0xa970b999) else if x == 0x9a then 0x119448fa else 0x47e96422)
    else if x < 0xa0 then (if x < 0x9e then (if x == 0x9c then 0xa8fc8cc4 else 0xa0f03f1a) else if x == 0x9e then 0x567d2cd8 else 0x223390ef)
    else if x < 0xa4 then (if x < 0xa2 then (if x == 0xa0 then 0x87494ec7 else 0xd938d1c1) else if x == 0xa2 then 0x8ccaa2fe else 0x98d40b36)
    else if x < 0xa8 then (if x < 0xa6 then (if x == 0xa4 then 0xa6f581cf else 0xa57ade28) else if x == 0xa6 then 0xdab78e26 else 0x3fadbfa4)
    else if x < 0xac then (if x < 0xaa then (if x == 0xa8 then 0x2c3a9de4 else 0x5078920d) else if x == 0xaa then 0x6a5fcc9b else 0x547e4662)
    else if x < 0xb0 then (if x < 0xae then (if x == 0xac then 0xf68d13c2 else 0x90d8b8e8) else if x == 0xae then 0x2e39f75e else 0x82c3aff5)
    else if x < 0xb4 then (if x < 0xb2 then (if x == 0xb0 then 0x9f5d80be else 0x69d0937c) else if x == 0xb2 then 0x6fd52da9 else 0xcf2512b3)
    else if x < 0xb8 then (if x < 0xb6 then (if x == 0xb4 then 0xc8ac993b else 0x10187da7) else if x == 0xb6 then 0xe89c636e else 0xdb3bbb7b)
    else if x < 0xbc then (if x < 0xba then (if x == 0xb8 then 0xcd267809 else 0x6e5918f4) else if x == 0xba then 0xec9ab701 else 0x834f9aa8)
    else if x < 0xc0 then (if x < 0xbe then (if x == 0xbc then 0xe6956e65 else 0xaaffe67e) else if x == 0xbe then 0x21bccf08 else 0xef15e8e6)
    else if x < 0xc4 then (if x < 0xc2 then (if x == 0xc0 then 0xbae79bd9 else 0x4a6f36ce) else if x == 0xc2 then 0xea9f09d4 else 0x29b07cd6)
    else if x < 0xc8 then (if x < 0xc6 then (if x == 0xc4 then 0x31a4b2af else 0x2a3f2331) else if x == 0xc6 then 0xc6a59430 else 0x35a266c0)
    else if x < 0xcc then (if x < 0xca then (if x == 0xc8 then 0x744ebc37 else 0xfc82caa6) else if x == 0xca then 0xe090d0b0 else 0x33a7d815)
    else if x < 0xd0 then (if x < 0xce then (if x == 0xcc then 0xf104984a else 0x41ecdaf7) else if x == 0xce then 0x7fcd500e else 0x1791f62f)
    else if x < 0xd4 then (if x < 0xd2 then (if x == 0xd0 then 0x764dd68d else 0x43efb04d) else if x == 0xd2 then 0xccaa4d54 else 0xe49604df)
    else if x < 0xd8 then (if x < 0xd6 then (if x == 0xd4 then 0x9ed1b5e3 else 0x4c6a881b) else if x == 0xd6 then 0xc12c1fb8 else 0x4665517f)
    else if x < 0xdc then (if x < 0xda then (if x == 0xd8 then 0x9d5eea04 else 0x018c355d) else if x == 0xda then 0xfa877473 else 0xfb0b412e)
    else if x < 0xe0 then (if x < 0xde then (if x == 0xdc then 0xb3671d5a else 0x92dbd252) else if x == 0xde then 0xe9105633 else 0x6dd64713)
    else if x < 0xe4 then (if x < 0xe2 then (if x == 0xe0 then 0x9ad7618c else 0x37a10c7a) else if x == 0xe2 then 0x59f8148e else 0xeb133c89)
    else if x < 0xe8 then (if x < 0xe6 then (if x == 0xe4 then 0xcea927ee else 0xb761c935) else if x == 0xe6 then 0xe11ce5ed else 0x7a47b13c)
    else if x < 0xec then (if x < 0xea then (if x == 0xe8 then 0x9cd2df59 else 0x55f2733f) else if x == 0xea then 0x1814ce79 else 0x73c737bf)
    else if x < 0xf0 then (if x < 0xee then (if x == 0xec then 0x53f7cdea else 0x5ffdaa5b) else if x == 0xee then 0xdf3d6f14 else 0x7844db86)
    else if x < 0xf4 then (if x < 0xf2 then (if x == 0xf0 then 0xcaaff381 else 0xb968c43e) else if x == 0xf2 then 0x3824342c else 0xc2a3405f)
    else if x < 0xf8 then (if x < 0xf6 then (if x == 0xf4 then 0x161dc372 else 0xbce2250c) else if x == 0xf6 then 0x283c498b else 0xff0d9541)
    else if x < 0xfc then (if x < 0xfa then (if x == 0xf8 then 0x39a80171 else 0x080cb3de) else if x == 0xfa then 0xd8b4e49c else 0x6456c190)
    else (if x < 0xfe then (if x == 0xfc then 0x7bcb8461 else 0xd532b670) else if x == 0xfe then 0x486c5c74 else 0xd0b85742)
  }

  lemma Td0First(x: byte)
    requires x < 0x40
    ensures Td0Entry(x) == Pack(R.Td0(x))
  {
  }

  lemma Td0Second(x: byte)
    requires 0x40 <= x < 0x80
    ensures Td0Entry(x) == Pack(R.Td0(x))
  {
  }

  lemma Td0Third(x: byte)
    requires 0x80 <= x < 0xc0
    ensures Td0Entry(x) == Pack(R.Td0(x))
  {
  }

  lemma Td0Fourth(x: byte)
    requires x >= 0xc0
    ensures Td0Entry(x) == Pack(R.Td0(x))
  {
  }

  lemma Td0Literal(x: byte)
    ensures Td0Entry(x) == Pack(R.Td0(x))
  {
    hide *;
    if x < 0x40 {
      Td0First(x);
    } else if x < 0x80 {
      Td0Second(x);
    } else if x < 0xc0 {
      Td0Third(x);
    } else {
      Td0Fourth(x);
    }
  }

  function Td1Entry(x: byte): bv32 {
    if x < 0x04 then (if x < 0x02 then (if x == 0x00 then 0x5051f4a7 else 0x537e4165) else if x == 0x02 then 0xc31a17a4 else 0x963a275e)
    else if x < 0x08 then (if x < 0x06 then (if x == 0x04 then 0xcb3bab6b else 0xf11f9d45) else if x == 0x06 then 0xabacfa58 else 0x934be303)
    else if x < 0x0c then (if x < 0x0a then (if x == 0x08 then 0x552030fa else 0xf6ad766d) else if x == 0x0a then 0x9188cc76 else 0x25f5024c)
    else if x < 0x10 then (if x < 0x0e then (if x == 0x0c then 0xfc4fe5d7 else 0xd7c52acb) else if x == 0x0e then 0x80263544 else 0x8fb562a3)
    else if x < 0x14 then (if x < 0x12 then (if x == 0x10 then 0x49deb15a else 0x6725ba1b) else if x == 0x12 then 0x9845ea0e else 0xe15dfec0)
    else if x < 0x18 then (if x < 0x16 then (if x == 0x14 then 0x02c32f75 else 0x12814cf0) else if x == 0x16 then 0xa38d4697 else 0xc66bd3f9)
    else if x < 0x1c then (if x < 0x1a then (if x == 0x18 then 0xe7038f5f else 0x9515929c) else if x == 0x1a then 0xebbf6d7a else 0xda955259)
    else if x < 0x20 then (if x < 0x1e then (if x == 0x1c then 0x2dd4be83 else 0xd3587421) else if x == 0x1e then 0x2949e069 else 0x448ec9c8)
    else if x < 0x24 then (if x < 0x22 then (if x == 0x20 then 0x6a75c289 else 0x78f48e79) else if x == 0x22 then 0x6b99583e else 0xdd27b971)
    else if x < 0x28 then (if x < 0x26 then (if x == 0x24 then 0xb6bee14f else 0x17f088ad) else if x == 0x26 then 0x66c920ac else 0xb47dce3a)
    else if x < 0x2c then (if x < 0x2a then (if x == 0x28 then 0x1863df4a else 0x82e51a31) else if x == 0x2a then 0x60975133 else 0x4562537f)
    else if x < 0x30 then (if x < 0x2e then (if x == 0x2c then 0xe0b16477 else 0x84bb6bae) else if x == 0x2e then 0x1cfe81a0 else 0x94f9082b)
    else if x < 0x34 then (if x < 0x32 then (if x == 0x30 then 0x58704868 else 0x198f45fd) else if x == 0x32 then 0x8794de6c else 0xb7527bf8)
    else if x < 0x38 then (if x < 0x36 then (if x == 0x34 then 0x23ab73d3 else 0xe2724b02) else if x == 0x36 then 0x57e31f8f else 0x2a6655ab)
    else if x < 0x3c then (if x < 0x3a then (if x == 0x38 then 0x07b2eb28 else 0x032fb5c2) else if x == 0x3a then 0x9a86c57b else 0xa5d33708)
    else if x < 0x40 then (if x < 0x3e then (if x == 0x3c then 0xf2302887 else 0xb223bfa5) else if x == 0x3e then 0xba02036a else 0x5ced1682)
    else if x < 0x44 then (if x < 0x42 then (if x == 0x40 then 0x2b8acf1c else 0x92a779b4) else if x == 0x42 then 0xf0f307f2 else 0xa14e69e2)
    else if x < 0x48 then (if x < 0x46 then (if x == 0x44 then 0xcd65daf4 else 0xd50605be) else if x == 0x46 then 0x1fd13462 else 0x8ac4a6fe)
    else if x < 0x4c then (if x < 0x4a then (if x == 0x48 then 0x9d342e53 else 0xa0a2f355) else if x == 0x4a then 0x32058ae1 else 0x75a4f6eb)
    else if x < 0x50 then (if x < 0x4e then (if x == 0x4c then 0x390b83ec else 0xaa4060ef) else if x == 0x4e then 0x065e719f else 0x51bd6e10)
    else if x < 0x54 then (if x < 0x52 then (if x == 0x50 then 0xf93e218a else 0x3d96dd06) else if x == 0x52 then 0xaedd3e05 else 0x464de6bd)
    else if x < 0x58 then (if x < 0x56 then (if x == 0x54 then 0xb591548d else 0x0571c45d) else if x == 0x56 then 0x6f0406d4 else 0xff605015)
    else if x < 0x5c then (if x < 0x5a then (if x == 0x58 then 0x241998fb else 0x97d6bde9) else if x == 0x5a then 0xcc894043 else 0x7767d99e)
    else if x < 0x60 then (if x < 0x5e then (if x == 0x5c then 0xbdb0e842 else 0x8807898b) else if x == 0x5e then 0x38e7195b else 0xdb79c8ee)
    else if x < 0x64 then (if x < 0x62 then (if x == 0x60 then 0x47a17c0a else 0xe97c420f) else if x == 0x62 then 0xc9f8841e else 0x00000000)
    else if x < 0x68 then (if x < 0x66 then (if x == 0x64 then 0x83098086 else 0x48322bed) else if x == 0x66 then 0xac1e1170 else 0x4e6c5a72)
    else if x < 0x6c then (if x < 0x6a then (if x == 0x68 then 0xfbfd0eff else 0x560f8538) else if x == 0x6a then 0x1e3daed5 else 0x27362d39)
    else if x < 0x70 then (if x < 0x6e then (if x == 0x6c then 0x640a0fd9 else 0x21685ca6) else if x == 0x6e then 0xd19b5b54 else 0x3a24362e)
    else if x < 0x74 then (if x < 0x72 then (if x == 0x70 then 0xb10c0a67 else 0x0f9357e7) else if x == 0x72 then 0xd2b4ee96 else 0x9e1b9b91)
    else if x < 0x78 then (if x < 0x76 then (if x == 0x74 then 0x4f80c0c5 else 0xa261dc20) else if x == 0x76 then 0x695a774b else 0x161c121a)
    else if x < 0x7c then (if x < 0x7a then (if x == 0x78 then 0x0ae293ba else 0xe5c0a02a) else if x == 0x7a then 0x433c22e0 else 0x1d121b17)
    else if x < 0x80 then (if x < 0x7e then (if x == 0x7c then 0x0b0e090d else 0xadf28bc7) else if x == 0x7e then 0xb92db6a8 else 0xc8141ea9)
    else if x < 0x84 then (if x < 0x82 then (if x == 0x80 then 0x8557f119 else 0x4caf7507) else if x == 0x82 then 0xbbee99dd else 0xfda37f60)
    else if x < 0x88 then (if x < 0x86 then (if x == 0x84 then 0x9ff70126 else 0xbc5c72f5) else if x == 0x86 then 0xc544663b else 0x345bfb7e)
    else if x < 0x8c then (if x < 0x8a then (if x == 0x88 then 0x768b4329 else 0xdccb23c6) else if x == 0x8a then 0x68b6edfc else 0x63b8e4f1)
    else if x < 0x90 then (if x < 0x8e then (if x == 0x8c then 0xcad731dc else 0x10426385) else if x == 0x8e then 0x40139722 else 0x2084c611)
    else if x < 0x94 then (if x < 0x92 then (if x == 0x90 then 0x7d854a24 else 0xf8d2bb3d) else if x == 0x92 then 0x11aef932 else 0x6dc729a1)
    else if x < 0x98 then (if x < 0x96 then (if x == 0x94 then 0x4b1d9e2f else 0xf3dcb230) else if x == 0x96 then 0xec0d8652 else 0xd077c1e3)
    else if x < 0x9c then (if x < 0x9a then (if x == 0x98 then 0x6c2bb316 else 0x99a970b9) else if x == 0x9a then 0xfa119448 else 0x2247e964)
    else if x < 0xa0 then (if x < 0x9e then (if x == 0x9c then 0xc4a8fc8c else 0x1aa0f03f) else if x == 0x9e then 0xd8567d2c else 0xef223390)
    else if x < 0xa4 then (if x < 0xa2 then (if x == 0xa0 then 0xc787494e else 0xc1d938d1) else if x == 0xa2 then 0xfe8ccaa2 else 0x3698d40b)
    else if x < 0xa8 then (if x < 0xa6 then (if x == 0xa4 then 0xcfa6f581 else 0x28a57ade) else if x == 0xa6 then 0x26dab78e else 0xa43fadbf)
    else if x < 0xac then (if x < 0xaa then (if x == 0xa8 then 0xe42c3a9d else 0x0d507892) else if x == 0xaa then 0x9b6a5fcc else 0x62547e46)
    else if x < 0xb0 then (if x < 0xae then (if x == 0xac then 0xc2f68d13 else 0xe890d8b8) else if x == 0xae then 0x5e2e39f7 else 0xf582c3af)
    else if x < 0xb4 then (if x < 0xb2 then (if x == 0xb0 then 0xbe9f5d80 else 0x7c69d093) else if x == 0xb2 then 0xa96fd52d else 0xb3cf2512)
    else if x < 0xb8 then (if x < 0xb6 then (if x == 0xb4 then 0x3bc8ac99 else 0xa710187d) else if x == 0xb6 then 0x6ee89c63 else 0x7bdb3bbb)
    else if x < 0xbc then (if x < 0xba then (if x == 0xb8 then 0x09cd2678 else 0xf46e5918) else if x == 0xba then 0x01ec9ab7 else 0xa8834f9a)
    else if x < 0xc0 then (if x < 0xbe then (if x == 0xbc then 0x65e6956e else 0x7eaaffe6) else if x == 0xbe then 0x0821bccf else 0xe6ef15e8)
    else if x < 0xc4 then (if x < 0xc2 then (if x == 0xc0 then 0xd9bae79b else 0xce4a6f36) else if x == 0xc2 then 0xd4ea9f09 else 0xd629b07c)
    else if x < 0xc8 then (if x < 0xc6 then (if x == 0xc4 then 0xaf31a4b2 else 0x312a3f23) else if x == 0xc6 then 0x30c6a594 else 0xc035a266)
    else if x < 0xcc then (if x < 0xca then (if x == 0xc8 then 0x37744ebc else 0xa6fc82ca) else if x == 0xca then 0xb0e090d0 else 0x1533a7d8)
    else if x < 0xd0 then (if x < 0xce then (if x == 0xcc then 0x4af10498 else 0xf741ecda) else if x == 0xce then 0x0e7fcd50 else 0x2f1791f6)
    else if x < 0xd4 then (if x < 0xd2 then (if x == 0xd0 then 0x8d764dd6 else 0x4d43efb0) else if x == 0xd2 then 0x54ccaa4d else 0xdfe49604)
    else if x < 0xd8 then (if x < 0xd6 then (if x == 0xd4 then 0xe39ed1b5 else 0x1b4c6a88) else if x == 0xd6 then 0xb8c12c1f else 0x7f466551)
    else if x < 0xdc then (if x < 0xda then (if x == 0xd8 then 0x049d5eea else 0x5d018c35) else if x == 0xda then 0x73fa8774 else 0x2efb0b41)
    else if x < 0xe0 then (if x < 0xde then (if x == 0xdc then 0x5ab3671d else 0x5292dbd2) else if x == 0xde then 0x33e91056 else 0x136dd647)
    else if x < 0xe4 then (if x < 0xe2 then (if x == 0xe0 then 0x8c9ad761 else 0x7a37a10c) else if x == 0xe2 then 0x8e59f814 else 0x89eb133c)
    else if x < 0xe8 then (if x < 0xe6 then (if x == 0xe4 then 0xeecea927 else 0x35b761c9) else if x == 0xe6 then 0xede11ce5 else 0x3c7a47b1)
    else if x < 0xec then (if x < 0xea then (if x == 0xe8 then 0x599cd2df else 0x3f55f273) else if x == 0xea then 0x791814ce else 0xbf73c737)
    else if x < 0xf0 then (if x < 0xee then (if x == 0xec then 0xea53f7cd else 0x5b5ffdaa) else if x == 0xee then 0x14df3d6f else 0x867844db)
    else if x < 0xf4 then (if x < 0xf2 then (if x == 0xf0 then 0x81caaff3 else 0x3eb968c4) else if x == 0xf2 then 0x2c382434 else 0x5fc2a340)
    else if x < 0xf8 then (if x < 0xf6 then (if x == 0xf4 then 0x72161dc3 else 0x0cbce225) else if x == 0xf6 then 0x8b283c49 else 0x41ff0d95)
    else if x < 0xfc then (if x < 0xfa then (if x == 0xf8 then 0x7139a801 else 0xde080cb3) else if x == 0xfa then 0x9cd8b4e4 else 0x906456c1)
    else (if x < 0xfe then (if x == 0xfc then 0x617bcb84 else 0x70d532b6) else if x == 0xfe then 0x74486c5c else 0x42d0b857)
  }

  lemma Td1First(x: byte)
    requires x < 0x40
    ensures Td1Entry(x) == Pack(R.Td1(x))
  {
  }

  lemma Td1Second(x: byte)
    requires 0x40 <= x < 0x80
    ensures Td1Entry(x) == Pack(R.Td1(x))
  {
  }

  lemma Td1Third(x: byte)
    requires 0x80 <= x < 0xc0
    ensures Td1Entry(x) == Pack(R.Td1(x))
  {
  }

  lemma Td1Fourth(x: byte)
    requires x >= 0xc0
    ensures Td1Entry(x) == Pack(R.Td1(x))
  {
  }

  lemma Td1Literal(x: byte)
    ensures Td1Entry(x) == Pack(R.Td1(x))
  {
    hide *;
    if x < 0x40 {
      Td1First(x);
    } else if x < 0x80 {
      Td1Second(x);
    } else if x < 0xc0 {
      Td1Third(x);
    } else {
      Td1Fourth(x);
    }
  }

  function Td2Entry(x: byte): bv32 {
    if x < 0x04 then (if x < 0x02 then (if x == 0x00 then 0xa75051f4 else 0x65537e41) else if x == 0x02 then 0xa4c31a17 else 0x5e963a27)
    else if x < 0x08 then (if x < 0x06 then (if x == 0x04 then 0x6bcb3bab else 0x45f11f9d) else if x == 0x06 then 0x58abacfa else 0x03934be3)
    else if x < 0x0c then (if x < 0x0a then (if x == 0x08 then 0xfa552030 else 0x6df6ad76) else if x == 0x0a then 0x769188cc else 0x4c25f502)
    else if x < 0x10 then (if x < 0x0e then (if x == 0x0c then 0xd7fc4fe5 else 0xcbd7c52a) else if x == 0x0e then 0x44802635 else 0xa38fb562)
    else if x < 0x14 then (if x < 0x12 then (if x == 0x10 then 0x5a49deb1 else 0x1b6725ba) else if x == 0x12 then 0x0e9845ea else 0xc0e15dfe)
    else if x < 0x18 then (if x < 0x16 then (if x == 0x14 then 0x7502c32f else 0xf012814c) else if x == 0x16 then 0x97a38d46 else 0xf9c66bd3)
    else if x < 0x1c then (if x < 0x1a then (if x == 0x18 then 0x5fe7038f else 0x9c951592) else if x == 0x1a then 0x7aebbf6d else 0x59da9552)
    else if x < 0x20 then (if x < 0x1e then (if x == 0x1c then 0x832dd4be else 0x21d35874) else if x == 0x1e then 0x692949e0 else 0xc8448ec9)
    else if x < 0x24 then (if x < 0x22 then (if x == 0x20 then 0x896a75c2 else 0x7978f48e) else if x == 0x22 then 0x3e6b9958 else 0x71dd27b9)
    else if x < 0x28 then (if x < 0x26 then (if x == 0x24 then 0x4fb6bee1 else 0xad17f088) else if x == 0x26 then 0xac66c920 else 0x3ab47dce)
    else if x < 0x2c then (if x < 0x2a then (if x == 0x28 then 0x4a1863df else 0x3182e51a) else if x == 0x2a then 0x33609751 else 0x7f456253)
    else if x < 0x30 then (if x < 0x2e then (if x == 0x2c then 0x77e0b164 else 0xae84bb6b) else if x == 0x2e then 0xa01cfe81 else 0x2b94f908)
    else if x < 0x34 then (if x < 0x32 then (if x == 0x30 then 0x68587048 else 0xfd198f45) else if x == 0x32 then 0x6c8794de else 0xf8b7527b)
    else if x < 0x38 then (if x < 0x36 then (if x == 0x34 then 0xd323ab73 else 0x02e2724b) else if x == 0x36 then 0x8f57e31f else 0xab2a6655)
    else if x < 0x3c then (if x < 0x3a then (if x == 0x38 then 0x2807b2eb else 0xc2032fb5) else if x == 0x3a then 0x7b9a86c5 else 0x08a5d337)
    else if x < 0x40 then (if x < 0x3e then (if x == 0x3c then 0x87f23028 else 0xa5b223bf) else if x == 0x3e then 0x6aba0203 else 0x825ced16)
    else if x < 0x44 then (if x < 0x42 then (if x == 0x40 then 0x1c2b8acf else 0xb492a779) else if x == 0x42 then 0xf2f0f307 else 0xe2a14e69)
    else if x < 0x48 then (if x < 0x46 then (if x == 0x44 then 0xf4cd65da else 0xbed50605) else if x == 0x46 then 0x621fd134 else 0xfe8ac4a6)
    else if x < 0x4c then (if x < 0x4a then (if x == 0x48 then 0x539d342e else 0x55a0a2f3) else if x == 0x4a then 0xe132058a else 0xeb75a4f6)
    else if x < 0x50 then (if x < 0x4e then (if x == 0x4c then 0xec390b83 else 0xefaa4060) else if x == 0x4e then 0x9f065e71 else 0x1051bd6e)
    else if x < 0x54 then (if x < 0x52 then (if x == 0x50 then 0x8af93e21 else 0x063d96dd) else if x == 0x52 then 0x05aedd3e else 0xbd464de6)
    else if x < 0x58 then (if x < 0x56 then (if x == 0x54 then 0x8db59154 else 0x5d0571c4) else if x == 0x56 then 0xd46f0406 else 0x15ff6050)
    else if x < 0x5c then (if x < 0x5a then (if x == 0x58 then 0xfb241998 else 0xe997d6bd) else if x == 0x5a then 0x43cc8940 else 0x9e7767d9)
    else if x < 0x60 then (if x < 0x5e then (if x == 0x5c then 0x42bdb0e8 else 0x8b880789) else if x == 0x5e then 0x5b38e719 else 0xeedb79c8)
    else if x < 0x64 then (if x < 0x62 then (if x == 0x60 then 0x0a47a17c else 0x0fe97c42) else if x == 0x62 then 0x1ec9f884 else 0x00000000)
    else if x < 0x68 then (if x < 0x66 then (if x == 0x64 then 0x86830980 else 0xed48322b) else if x == 0x66 then 0x70ac1e11 else 0x724e6c5a)
    else if x < 0x6c then (if x < 0x6a then (if x == 0x68 then 0xfffbfd0e else 0x38560f85) else if x == 0x6a then 0xd51e3dae else 0x3927362d)
    else if x < 0x70 then (if x < 0x6e then (if x == 0x6c then 0xd9640a0f else 0xa621685c) else if x == 0x6e then 0x54d19b5b else 0x2e3a2436)
    else if x < 0x74 then (if x < 0x72 then (if x == 0x70 then 0x67b10c0a else 0xe70f9357) else if x == 0x72 then 0x96d2b4ee else 0x919e1b9b)
    else if x < 0x78 then (if x < 0x76 then (if x == 0x74 then 0xc54f80c0 else 0x20a261dc) else if x == 0x76 then 0x4b695a77 else 0x1a161c12)
    else if x < 0x7c then (if x < 0x7a then (if x == 0x78 then 0xba0ae293 else 0x2ae5c0a0) else if x == 0x7a then 0xe0433c22 else 0x171d121b)
    else if x < 0x80 then (if x < 0x7e then (if x == 0x7c then 0x0d0b0e09 else 0xc7adf28b) else if x == 0x7e then 0xa8b92db6 else 0xa9c8141e)
    else if x < 0x84 then (if x < 0x82 then (if x == 0x80 then 0x198557f1 else 0x074caf75) else if x == 0x82 then 0xddbbee99 else 0x60fda37f)
    else if x < 0x88 then (if x < 0x86 then (if x == 0x84 then 0x269ff701 else 0xf5bc5c72) else if x == 0x86 then 0x3bc54466 else 0x7e345bfb)
    else if x < 0x8c then (if x < 0x8a then (if x == 0x88 then 0x29768b43 else 0xc6dccb23) else if x == 0x8a then 0xfc68b6ed else 0xf163b8e4)
    else if x < 0x90 then (if x < 0x8e then (if x == 0x8c then 0xdccad731 else 0x85104263) else if x == 0x8e then 0x22401397 else 0x112084c6)
    else if x < 0x94 then (if x < 0x92 then (if x == 0x90 then 0x247d854a else 0x3df8d2bb) else if x == 0x92 then 0x3211aef9 else 0xa16dc729)
    else if x < 0x98 then (if x < 0x96 then (if x == 0x94 then 0x2f4b1d9e else 0x30f3dcb2) else if x == 0x96 then 0x52ec0d86 else 0xe3d077c1)
    else if x < 0x9c then (if x < 0x9a then (if x == 0x98 then 0x166c2bb3 else 0xb999a970) else if x == 0x9a then 0x48fa1194 else 0x642247e9)
    else if x < 0xa0 then (if x < 0x9e then (if x == 0x9c then 0x8cc4a8fc else 0x3f1aa0f0) else if x == 0x9e then 0x2cd8567d else 0x90ef2233)
    else if x < 0xa4 then (if x < 0xa2 then (if x == 0xa0 then 0x4ec78749 else 0xd1c1d938) else if x == 0xa2 then 0xa2fe8cca else 0x0b3698d4)
    else if x < 0xa8 then (if x < 0xa6 then (if x == 0xa4 then 0x81cfa6f5 else 0xde28a57a) else if x == 0xa6 then 0x8e26dab7 else 0xbfa43fad)
    else if x < 0xac then (if x < 0xaa then (if x == 0xa8 then 0x9de42c3a else 0x920d5078) else if x == 0xaa then 0xcc9b6a5f else 0x4662547e)
    else if x < 0xb0 then (if x < 0xae then (if x == 0xac then 0x13c2f68d else 0xb8e890d8) else if x == 0xae then 0xf75e2e39 else 0xaff582c3)
    else if x < 0xb4 then (if x < 0xb2 then (if x == 0xb0 then 0x80be9f5d else 0x937c69d0) else if x == 0xb2 then 0x2da96fd5 else 0x12b3cf25)
    else if x < 0xb8 then (if x < 0xb6 then (if x == 0xb4 then 0x993bc8ac else 0x7da71018) else if x == 0xb6 then 0x636ee89c else 0xbb7bdb3b)
    else if x < 0xbc then (if x < 0xba then (if x == 0xb8 then 0x7809cd26 else 0x18f46e59) else if x == 0xba then 0xb701ec9a else 0x9aa8834f)
    else if x < 0xc0 then (if x < 0xbe then (if x == 0xbc then 0x6e65e695 else 0xe67eaaff) else if x == 0xbe then 0xcf0821bc else 0xe8e6ef15)
    else if x < 0xc4 then (if x < 0xc2 then (if x == 0xc0 then 0x9bd9bae7 else 0x36ce4a6f) else if x == 0xc2 then 0x09d4ea9f else 0x7cd629b0)
    else if x < 0xc8 then (if x < 0xc6 then (if x == 0xc4 then 0xb2af31a4 else 0x23312a3f) else if x == 0xc6 then 0x9430c6a5 else 0x66c035a2)
    else if x < 0xcc then (if x < 0xca then (if x == 0xc8 then 0xbc37744e else 0xcaa6fc82) else if x == 0xca then 0xd0b0e090 else 0xd81533a7)
    else if x < 0xd0 then (if x < 0xce then (if x == 0xcc then 0x984af104 else 0xdaf741ec) else if x == 0xce then 0x500e7fcd else 0xf62f1791)
    else if x < 0xd4 then (if x < 0xd2 then (if x == 0xd0 then 0xd68d764d else 0xb04d43ef) else if x == 0xd2 then 0x4d54ccaa else 0x04dfe496)
    else if x < 0xd8 then (if x < 0xd6 then (if x == 0xd4 then 0xb5e39ed1 else 0x881b4c6a) else if x == 0xd6 then 0x1fb8c12c else 0x517f4665)
    else if x < 0xdc then (if x < 0xda then (if x == 0xd8 then 0xea049d5e else 0x355d018c) else if x == 0xda then 0x7473fa87 else 0x412efb0b)
    else if x < 0xe0 then (if x < 0xde then (if x == 0xdc then 0x1d5ab367 else 0xd25292db) else if x == 0xde then 0x5633e910 else 0x47136dd6)
    else if x < 0xe4 then (if x < 0xe2 then (if x == 0xe0 then 0x618c9ad7 else 0x0c7a37a1) else if x == 0xe2 then 0x148e59f8 else 0x3c89eb13)
    else if x < 0xe8 then (if x < 0xe6 then (if x == 0xe4 then 0x27eecea9 else 0xc935b761) else if x == 0xe6 then 0xe5ede11c else 0xb13c7a47)
    else if x < 0xec then (if x < 0xea then (if x == 0xe8 then 0xdf599cd2 else 0x733f55f2) else if x == 0xea then 0xce791814 else 0x37bf73c7)
    else if x < 0xf0 then (if x < 0xee then (if x == 0xec then 0xcdea53f7 else 0xaa5b5ffd) else if x == 0xee then 0x6f14df3d else 0xdb867844)
    else if x < 0xf4 then (if x < 0xf2 then (if x == 0xf0 then 0xf381caaf else 0xc43eb968) else if x == 0xf2 then 0x342c3824 else 0x405fc2a3)
    else if x < 0xf8 then (if x < 0xf6 then (if x == 0xf4 then 0xc372161d else 0x250cbce2) else if x == 0xf6 then 0x498b283c else 0x9541ff0d)
    else if x < 0xfc then (if x < 0xfa then (if x == 0xf8 then 0x017139a8 else 0xb3de080c) else if x == 0xfa then 0xe49cd8b4 else 0xc1906456)
    else (if x < 0xfe then (if x == 0xfc then 0x84617bcb else 0xb670d532) else if x == 0xfe then 0x5c74486c else 0x5742d0b8)
  }

  lemma Td2First(x: byte)
    requires x < 0x40
    ensures Td2Entry(x) == Pack(R.Td2(x))
  {
  }

  lemma Td2Second(x: byte)
    requires 0x40 <= x < 0x80
    ensures Td2Entry(x) == Pack(R.Td2(x))
  {
  }

  lemma Td2Third(x: byte)
    requires 0x80 <= x < 0xc0
    ensures Td2Entry(x) == Pack(R.Td2(x))
  {
  }

  lemma Td2Fourth(x: byte)
    requires x >= 0xc0
    ensures Td2Entry(x) == Pack(R.Td2(x))
  {
  }

  lemma Td2Literal(x: byte)
    ensures Td2Entry(x) == Pack(R.Td2(x))
  {
    hide *;
    if x < 0x40 {
      Td2First(x);
    } else if x < 0x80 {
      Td2Second(x);
    } else if x < 0xc0 {
      Td2Third(x);
    } else {
      Td2Fourth(x);
    }
  }

  function Td3Entry(x: byte): bv32 {
    if x < 0x04 then (if x < 0x02 then (if x == 0x00 then 0xf4a75051 else 0x4165537e) else if x == 0x02 then 0x17a4c31a else 0x275e963a)
    else if x < 0x08 then (if x < 0x06 then (if x == 0x04 then 0xab6bcb3b else 0x9d45f11f) else if x == 0x06 then 0xfa58abac else 0xe303934b)
    else if x < 0x0c then (if x < 0x0a then (if x == 0x08 then 0x30fa5520 else 0x766df6ad) else if x == 0x0a then 0xcc769188 else 0x024c25f5)
    else if x < 0x10 then (if x < 0x0e then (if x == 0x0c then 0xe5d7fc4f else 0x2acbd7c5) else if x == 0x0e then 0x35448026 else 0x62a38fb5)
    else if x < 0x14 then (if x < 0x12 then (if x == 0x10 then 0xb15a49de else 0xba1b6725) else if x == 0x12 then 0xea0e9845 else 0xfec0e15d)
    else if x < 0x18 then (if x < 0x16 then (if x == 0x14 then 0x2f7502c3 else 0x4cf01281) else if x == 0x16 then 0x4697a38d else 0xd3f9c66b)
    else if x < 0x1c then (if x < 0x1a then (if x == 0x18 then 0x8f5fe703 else 0x929c9515) else if x == 0x1a then 0x6d7aebbf else 0x5259da95)
    else if x < 0x20 then (if x < 0x1e then (if x == 0x1c then 0xbe832dd4 else 0x7421d358) else if x == 0x1e then 0xe0692949 else 0xc9c8448e)
    else if x < 0x24 then (if x < 0x22 then (if x == 0x20 then 0xc2896a75 else 0x8e7978f4) else if x == 0x22 then 0x583e6b99 else 0xb971dd27)
    else if x < 0x28 then (if x < 0x26 then (if x == 0x24 then 0xe14fb6be else 0x88ad17f0) else if x == 0x26 then 0x20ac66c9 else 0xce3ab47d)
    else if x < 0x2c then (if x < 0x2a then (if x == 0x28 then 0xdf4a1863 else 0x1a3182e5) else if x == 0x2a then 0x51336097 else 0x537f4562)
    else if x < 0x30 then (if x < 0x2e then (if x == 0x2c then 0x6477e0b1 else 0x6bae84bb) else if x == 0x2e then 0x81a01cfe else 0x082b94f9)
    else if x < 0x34 then (if x < 0x32 then (if x == 0x30 then 0x48685870 else 0x45fd198f) else if x == 0x32 then 0xde6c8794 else 0x7bf8b752)
    else if x < 0x38 then (if x < 0x36 then (if x == 0x34 then 0x73d323ab else 0x4b02e272) else if x == 0x36 then 0x1f8f57e3 else 0x55ab2a66)
    else if x < 0x3c then (if x < 0x3a then (if x == 0x38 then 0xeb2807b2 else 0xb5c2032f) else if x == 0x3a then 0xc57b9a86 else 0x3708a5d3)
    else if x < 0x40 then (if x < 0x3e then (if x == 0x3c then 0x2887f230 else 0xbfa5b223) else if x == 0x3e then 0x036aba02 else 0x16825ced)
    else if x < 0x44 then (if x < 0x42 then (if x == 0x40 then 0xcf1c2b8a else 0x79b492a7) else if x == 0x42 then 0x07f2f0f3 else 0x69e2a14e)
    else if x < 0x48 then (if x < 0x46 then (if x == 0x44 then 0xdaf4cd65 else 0x05bed506) else if x == 0x46 then 0x34621fd1 else 0xa6fe8ac4)
    else if x < 0x4c then (if x < 0x4a then (if x == 0x48 then 0x2e539d34 else 0xf355a0a2) else if x == 0x4a then 0x8ae13205 else 0xf6eb75a4)
    else if x < 0x50 then (if x < 0x4e then (if x == 0x4c then 0x83ec390b else 0x60efaa40) else if x == 0x4e then 0x719f065e else 0x6e1051bd)
    else if x < 0x54 then (if x < 0x52 then (if x == 0x50 then 0x218af93e else 0xdd063d96) else if x == 0x52 then 0x3e05aedd else 0xe6bd464d)
    else if x < 0x58 then (if x < 0x56 then (if x == 0x54 then 0x548db591 else 0xc45d0571) else if x == 0x56 then 0x06d46f04 else 0x5015ff60)
    else if x < 0x5c then (if x < 0x5a then (if x == 0x58 then 0x98fb2419 else 0xbde997d6) else if x == 0x5a then 0x4043cc89 else 0xd99e7767)
    else if x < 0x60 then (if x < 0x5e then (if x == 0x5c then 0xe842bdb0 else 0x898b8807) else if x == 0x5e then 0x195b38e7 else 0xc8eedb79)
    else if x < 0x64 then (if x < 0x62 then (if x == 0x60 then 0x7c0a47a1 else 0x420fe97c) else if x == 0x62 then 0x841ec9f8 else 0x00000000)
    else if x < 0x68 then (if x < 0x66 then (if x == 0x64 then 0x80868309 else 0x2bed4832) else if x == 0x66 then 0x1170ac1e else 0x5a724e6c)
    else if x < 0x6c then (if x < 0x6a then (if x == 0x68 then 0x0efffbfd else 0x8538560f) else if x == 0x6a then 0xaed51e3d else 0x2d392736)
    else if x < 0x70 then (if x < 0x6e then (if x == 0x6c then 0x0fd9640a else 0x5ca62168) else if x == 0x6e then 0x5b54d19b else 0x362e3a24)
    else if x < 0x74 then (if x < 0x72 then (if x == 0x70 then 0x0a67b10c else 0x57e70f93) else if x == 0x72 then 0xee96d2b4 else 0x9b919e1b)
    else if x < 0x78 then (if x < 0x76 then (if x == 0x74 then 0xc0c54f80 else 0xdc20a261) else if x == 0x76 then 0x774b695a else 0x121a161c)
    else if x < 0x7c then (if x < 0x7a then (if x == 0x78 then 0x93ba0ae2 else 0xa02ae5c0) else if x == 0x7a then 0x22e0433c else 0x1b171d12)
    else if x < 0x80 then (if x < 0x7e then (if x == 0x7c then 0x090d0b0e else 0x8bc7adf2) else if x == 0x7e then 0xb6a8b92d else 0x1ea9c814)
    else if x < 0x84 then (if x < 0x82 then (if x == 0x80 then 0xf1198557 else 0x75074caf) else if x == 0x82 then 0x99ddbbee else 0x7f60fda3)
    else if x < 0x88 then (if x < 0x86 then (if x == 0x84 then 0x01269ff7 else 0x72f5bc5c) else if x == 0x86 then 0x663bc544 else 0xfb7e345b)
    else if x < 0x8c then (if x < 0x8a then (if x == 0x88 then 0x4329768b else 0x23c6dccb) else if x == 0x8a then 0xedfc68b6 else 0xe4f163b8)
    else if x < 0x90 then (if x < 0x8e then (if x == 0x8c then 0x31dccad7 else 0x63851042) else if x == 0x8e then 0x97224013 else 0xc6112084)
    else if x < 0x94 then (if x < 0x92 then (if x == 0x90 then 0x4a247d85 else 0xbb3df8d2) else if x == 0x92 then 0xf93211ae else 0x29a16dc7)
    else if x < 0x98 then (if x < 0x96 then (if x == 0x94 then 0x9e2f4b1d else 0xb230f3dc) else if x == 0x96 then 0x8652ec0d else 0xc1e3d077)
    else if x < 0x9c then (if x < 0x9a then (if x == 0x98 then 0xb3166c2b else 0x70b999a9) else if x == 0x9a then 0x9448fa11 else 0xe9642247)
    else if x < 0xa0 then (if x < 0x9e then (if x == 0x9c then 0xfc8cc4a8 else 0xf03f1aa0) else if x == 0x9e then 0x7d2cd856 else 0x3390ef22)
    else if x < 0xa4 then (if x < 0xa2 then (if x == 0xa0 then 0x494ec787 else 0x38d1c1d9) else if x == 0xa2 then 0xcaa2fe8c else 0xd40b3698)
    else if x < 0xa8 then (if x < 0xa6 then (if x == 0xa4 then 0xf581cfa6 else 0x7ade28a5) else if x == 0xa6 then 0xb78e26da else 0xadbfa43f)
    else if x < 0xac then (if x < 0xaa then (if x == 0xa8 then 0x3a9de42c else 0x78920d50) else if x == 0xaa then 0x5fcc9b6a else 0x7e466254)
    else if x < 0xb0 then (if x < 0xae then (if x == 0xac then 0x8d13c2f6 else 0xd8b8e890) else if x == 0xae then 0x39f75e2e else 0xc3aff582)
    else if x < 0xb4 then (if x < 0xb2 then (if x == 0xb0 then 0x5d80be9f else 0xd0937c69) else if x == 0xb2 then 0xd52da96f else 0x2512b3cf)
    else if x < 0xb8 then (if x < 0xb6 then (if x == 0xb4 then 0xac993bc8 else 0x187da710) else if x == 0xb6 then 0x9c636ee8 else 0x3bbb7bdb)
    else if x < 0xbc then (if x < 0xba then (if x == 0xb8 then 0x267809cd else 0x5918f46e) else if x == 0xba then 0x9ab701ec else 0x4f9aa883)
    else if x < 0xc0 then (if x < 0xbe then (if x == 0xbc then 0x956e65e6 else 0xffe67eaa) else if x == 0xbe then 0xbccf0821 else 0x15e8e6ef)
    else if x < 0xc4 then (if x < 0xc2 then (if x == 0xc0 then 0xe79bd9ba else 0x6f36ce4a) else if x == 0xc2 then 0x9f09d4ea else 0xb07cd629)
    else if x < 0xc8 then (if x < 0xc6 then (if x == 0xc4 then 0xa4b2af31 else 0x3f23312a) else if x == 0xc6 then 0xa59430c6 else 0xa266c035)
    else if x < 0xcc then (if x < 0xca then (if x == 0xc8 then 0x4ebc3774 else 0x82caa6fc) else if x == 0xca then 0x90d0b0e0 else 0xa7d81533)
    else if x < 0xd0 then (if x < 0xce then (if x == 0xcc then 0x04984af1 else 0xecdaf741) else if x == 0xce then 0xcd500e7f else 0x91f62f17)
    else if x < 0xd4 then (if x < 0xd2 then (if x == 0xd0 then 0x4dd68d76 else 0xefb04d43) else if x == 0xd2 then 0xaa4d54cc else 0x9604dfe4)
    else if x < 0xd8 then (if x < 0xd6 then (if x == 0xd4 then 0xd1b5e39e else 0x6a881b4c) else if x == 0xd6 then 0x2c1fb8c1 else 0x65517f46)
    else if x < 0xdc then (if x < 0xda then (if x == 0xd8 then 0x5eea049d else 0x8c355d01) else if x == 0xda then 0x877473fa else 0x0b412efb)
    else if x < 0xe0 then (if x < 0xde then (if x == 0xdc then 0x671d5ab3 else 0xdbd25292) else if x == 0xde then 0x105633e9 else 0xd647136d)
    else if x < 0xe4 then (if x < 0xe2 then (if x == 0xe0 then 0xd7618c9a else 0xa10c7a37) else if x == 0xe2 then 0xf8148e59 else 0x133c89eb)
    else if x < 0xe8 then (if x < 0xe6 then (if x == 0xe4 then 0xa927eece else 0x61c935b7) else if x == 0xe6 then 0x1ce5ede1 else 0x47b13c7a)
    else if x < 0xec then (if x < 0xea then (if x == 0xe8 then 0xd2df599c else 0xf2733f55) else if x == 0xea then 0x14ce7918 else 0xc737bf73)
    else if x < 0xf0 then (if x < 0xee then (if x == 0xec then 0xf7cdea53 else 0xfdaa5b5f) else if x == 0xee then 0x3d6f14df else 0x44db8678)
    else if x < 0xf4 then (if x < 0xf2 then (if x == 0xf0 then 0xaff381ca else 0x68c43eb9) else if x == 0xf2 then 0x24342c38 else 0xa3405fc2)
    else if x < 0xf8 then (if x < 0xf6 then (if x == 0xf4 then 0x1dc37216 else 0xe2250cbc) else if x == 0xf6 then 0x3c498b28 else 0x0d9541ff)
    else if x < 0xfc then (if x < 0xfa then (if x == 0xf8 then 0xa8017139 else 0x0cb3de08) else if x == 0xfa then 0xb4e49cd8 else 0x56c19064)
    else (if x < 0xfe then (if x == 0xfc then 0xcb84617b else 0x32b670d5) else if x == 0xfe then 0x6c5c7448 else 0xb85742d0)
  }

  lemma Td3First(x: byte)
    requires x < 0x40
    ensures Td3Entry(x) == Pack(R.Td3(x))
  {
  }

  lemma Td3Second(x: byte)
    requires 0x40 <= x < 0x80
    ensures Td3Entry(x) == Pack(R.Td3(x))
  {
  }

  lemma Td3Third(x: byte)
    requires 0x80 <= x < 0xc0
    ensures Td3Entry(x) == Pack(R.Td3(x))
  {
  }

  lemma Td3Fourth(x: byte)
    requires x >= 0xc0
    ensures Td3Entry(x) == Pack(R.Td3(x))
  {
  }

  lemma Td3Literal(x: byte)
    ensures Td3Entry(x) == Pack(R.Td3(x))
  {
    hide *;
    if x < 0x40 {
      Td3First(x);
    } else if x < 0x80 {
      Td3Second(x);
    } else if x < 0xc0 {
      Td3Third(x);
    } else {
      Td3Fourth(x);
    }
  }

  function Td4Entry(x: byte): bv32 {
    if x < 0x04 then (if x < 0x02 then (if x == 0x00 then 0x52525252 else 0x09090909) else if x == 0x02 then 0x6a6a6a6a else 0xd5d5d5d5)
    else if x < 0x08 then (if x < 0x06 then (if x == 0x04 then 0x30303030 else 0x36363636) else if x == 0x06 then 0xa5a5a5a5 else 0x38383838)
    else if x < 0x0c then (if x < 0x0a then (if x == 0x08 then 0xbfbfbfbf else 0x40404040) else if x == 0x0a then 0xa3a3a3a3 else 0x9e9e9e9e)
    else if x < 0x10 then (if x < 0x0e then (if x == 0x0c then 0x81818181 else 0xf3f3f3f3) else if x == 0x0e then 0xd7d7d7d7 else 0xfbfbfbfb)
    else if x < 0x14 then (if x < 0x12 then (if x == 0x10 then 0x7c7c7c7c else 0xe3e3e3e3) else if x == 0x12 then 0x39393939 else 0x82828282)
    else if x < 0x18 then (if x < 0x16 then (if x == 0x14 then 0x9b9b9b9b else 0x2f2f2f2f) else if x == 0x16 then 0xffffffff else 0x87878787)
    else if x < 0x1c then (if x < 0x1a then (if x == 0x18 then 0x34343434 else 0x8e8e8e8e) else if x == 0x1a then 0x43434343 else 0x44444444)
    else if x < 0x20 then (if x < 0x1e then (if x == 0x1c then 0xc4c4c4c4 else 0xdededede) else if x == 0x1e then 0xe9e9e9e9 else 0xcbcbcbcb)
    else if x < 0x24 then (if x < 0x22 then (if x == 0x20 then 0x54545454 else 0x7b7b7b7b) else if x == 0x22 then 0x94949494 else 0x32323232)
    else if x < 0x28 then (if x < 0x26 then (if x == 0x24 then 0xa6a6a6a6 else 0xc2c2c2c2) else if x == 0x26 then 0x23232323 else 0x3d3d3d3d)
    else if x < 0x2c then (if x < 0x2a then (if x == 0x28 then 0xeeeeeeee else 0x4c4c4c4c) else if x == 0x2a then 0x95959595 else 0x0b0b0b0b)
    else if x < 0x30 then (if x < 0x2e then (if x == 0x2c then 0x42424242 else 0xfafafafa) else if x == 0x2e then 0xc3c3c3c3 else 0x4e4e4e4e)
    else if x < 0x34 then (if x < 0x32 then (if x == 0x30 then 0x08080808 else 0x2e2e2e2e) else if x == 0x32 then 0xa1a1a1a1 else 0x66666666)
    else if x < 0x38 then (if x < 0x36 then (if x == 0x34 then 0x28282828 else 0xd9d9d9d9) else if x == 0x36 then 0x24242424 else 0xb2b2b2b2)
    else if x < 0x3c then (if x < 0x3a then (if x == 0x38 then 0x76767676 else 0x5b5b5b5b) else if x == 0x3a then 0xa2a2a2a2 else 0x49494949)
    else if x < 0x40 then (if x < 0x3e then (if x == 0x3c then 0x6d6d6d6d else 0x8b8b8b8b) else if x == 0x3e then 0xd1d1d1d1 else 0x25252525)
    else if x < 0x44 then (if x < 0x42 then (if x == 0x40 then 0x72727272 else 0xf8f8f8f8) else if x == 0x42 then 0xf6f6f6f6 else 0x64646464)
    else if x < 0x48 then (if x < 0x46 then (if x == 0x44 then 0x86868686 else 0x68686868) else if x == 0x46 then 0x98989898 else 0x16161616)
    else if x < 0x4c then (if x < 0x4a then (if x == 0x48 then 0xd4d4d4d4 else 0xa4a4a4a4) else if x == 0x4a then 0x5c5c5c5c else 0xcccccccc)
    else if x < 0x50 then (if x < 0x4e then (if x == 0x4c then 0x5d5d5d5d else 0x65656565) else if x == 0x4e then 0xb6b6b6b6 else 0x92929292)
    else if x < 0x54 then (if x < 0x52 then (if x == 0x50 then 0x6c6c6c6c else 0x70707070) else if x == 0x52 then 0x48484848 else 0x50505050)
    else if x < 0x58 then (if x < 0x56 then (if x == 0x54 then 0xfdfdfdfd else 0xedededed) else if x == 0x56 then 0xb9b9b9b9 else 0xdadadada)
    else if x < 0x5c then (if x < 0x5a then (if x == 0x58 then 0x5e5e5e5e else 0x15151515) else if x == 0x5a then 0x46464646 else 0x57575757)
    else if x < 0x60 then (if x < 0x5e then (if x == 0x5c then 0xa7a7a7a7 else 0x8d8d8d8d) else if x == 0x5e then 0x9d9d9d9d else 0x84848484)
    else if x < 0x64 then (if x < 0x62 then (if x == 0x60 then 0x90909090 else 0xd8d8d8d8) else if x == 0x62 then 0xabababab else 0x00000000)
    else if x < 0x68 then (if x < 0x66 then (if x == 0x64 then 0x8c8c8c8c else 0xbcbcbcbc) else if x == 0x66 then 0xd3d3d3d3 else 0x0a0a0a0a)
    else if x < 0x6c then (if x < 0x6a then (if x == 0x68 then 0xf7f7f7f7 else 0xe4e4e4e4) else if x == 0x6a then 0x58585858 else 0x05050505)
    else if x < 0x70 then (if x < 0x6e then (if x == 0x6c then 0xb8b8b8b8 else 0xb3b3b3b3) else if x == 0x6e then 0x45454545 else 0x06060606)
    else if x < 0x74 then (if x < 0x72 then (if x == 0x70 then 0xd0d0d0d0 else 0x2c2c2c2c) else if x == 0x72 then 0x1e1e1e1e else 0x8f8f8f8f)
    else if x < 0x78 then (if x < 0x76 then (if x == 0x74 then 0xcacacaca else 0x3f3f3f3f) else if x == 0x76 then 0x0f0f0f0f else 0x02020202)
    else if x < 0x7c then (if x < 0x7a then (if x == 0x78 then 0xc1c1c1c1 else 0xafafafaf) else if x == 0x7a then 0xbdbdbdbd else 0x03030303)
    else if x < 0x80 then (if x < 0x7e then (if x == 0x7c then 0x01010101 else 0x13131313) else if x == 0x7e then 0x8a8a8a8a else 0x6b6b6b6b)
    else if x < 0x84 then (if x < 0x82 then (if x == 0x80 then 0x3a3a3a3a else 0x91919191) else if x == 0x82 then 0x11111111 else 0x41414141)
    else if x < 0x88 then (if x < 0x86 then (if x == 0x84 then 0x4f4f4f4f else 0x67676767) else if x == 0x86 then 0xdcdcdcdc else 0xeaeaeaea)
    else if x < 0x8c then (if x < 0x8a then (if x == 0x88 then 0x97979797 else 0xf2f2f2f2) else if x == 0x8a then 0xcfcfcfcf else 0xcececece)
    else if x < 0x90 then (if x < 0x8e then (if x == 0x8c then 0xf0f0f0f0 else 0xb4b4b4b4) else if x == 0x8e then 0xe6e6e6e6 else 0x73737373)
    else if x < 0x94 then (if x < 0x92 then (if x == 0x90 then 0x96969696 else 0xacacacac) else if x == 0x92 then 0x74747474 else 0x22222222)
    else if x < 0x98 then (if x < 0x96 then (if x == 0x94 then 0xe7e7e7e7 else 0xadadadad) else if x == 0x96 then 0x35353535 else 0x85858585)
    else if x < 0x9c then (if x < 0x9a then (if x == 0x98 then 0xe2e2e2e2 else 0xf9f9f9f9) else if x == 0x9a then 0x37373737 else 0xe8e8e8e8)
    else if x < 0xa0 then (if x < 0x9e then (if x == 0x9c then 0x1c1c1c1c else 0x75757575) else if x == 0x9e then 0xdfdfdfdf else 0x6e6e6e6e)
    else if x < 0xa4 then (if x < 0xa2 then (if x == 0xa0 then 0x47474747 else 0xf1f1f1f1) else if x == 0xa2 then 0x1a1a1a1a else 0x71717171)
    else if x < 0xa8 then (if x < 0xa6 then (if x == 0xa4 then 0x1d1d1d1d else 0x29292929) else if x == 0xa6 then 0xc5c5c5c5 else 0x89898989)
    else if x < 0xac then (if x < 0xaa then (if x == 0xa8 then 0x6f6f6f6f else 0xb7b7b7b7) else if x == 0xaa then 0x62626262 else 0x0e0e0e0e)
    else if x < 0xb0 then (if x < 0xae then (if x == 0xac then 0xaaaaaaaa else 0x18181818) else if x == 0xae then 0xbebebebe else 0x1b1b1b1b)
    else if x < 0xb4 then (if x < 0xb2 then (if x == 0xb0 then 0xfcfcfcfc else 0x56565656) else if x == 0xb2 then 0x3e3e3e3e else 0x4b4b4b4b)
    else if x < 0xb8 then (if x < 0xb6 then (if x == 0xb4 then 0xc6c6c6c6 else 0xd2d2d2d2) else if x == 0xb6 then 0x79797979 else 0x20202020)
    else if x < 0xbc then (if x < 0xba then (if x == 0xb8 then 0x9a9a9a9a else 0xdbdbdbdb) else if x == 0xba then 0xc0c0c0c0 else 0xfefefefe)
    else if x < 0xc0 then (if x < 0xbe then (if x == 0xbc then 0x78787878 else 0xcdcdcdcd) else if x == 0xbe then 0x5a5a5a5a else 0xf4f4f4f4)
    else if x < 0xc4 then (if x < 0xc2 then (if x == 0xc0 then 0x1f1f1f1f else 0xdddddddd) else if x == 0xc2 then 0xa8a8a8a8 else 0x33333333)
    else if x < 0xc8 then (if x < 0xc6 then (if x == 0xc4 then 0x88888888 else 0x07070707) else if x == 0xc6 then 0xc7c7c7c7 else 0x31313131)
    else if x < 0xcc then (if x < 0xca then (if x == 0xc8 then 0xb1b1b1b1 else 0x12121212) else if x == 0xca then 0x10101010 else 0x59595959)
    else if x < 0xd0 then (if x < 0xce then (if x == 0xcc then 0x27272727 else 0x80808080) else if x == 0xce then 0xecececec else 0x5f5f5f5f)
    else if x < 0xd4 then (if x < 0xd2 then (if x == 0xd0 then 0x60606060 else 0x51515151) else if x == 0xd2 then 0x7f7f7f7f else 0xa9a9a9a9)
    else if x < 0xd8 then (if x < 0xd6 then (if x == 0xd4 then 0x19191919 else 0xb5b5b5b5) else if x == 0xd6 then 0x4a4a4a4a else 0x0d0d0d0d)
    else if x < 0xdc then (if x < 0xda then (if x == 0xd8 then 0x2d2d2d2d else 0xe5e5e5e5) else if x == 0xda then 0x7a7a7a7a else 0x9f9f9f9f)
    else if x < 0xe0 then (if x < 0xde then (if x == 0xdc then 0x93939393 else 0xc9c9c9c9) else if x == 0xde then 0x9c9c9c9c else 0xefefefef)
    else if x < 0xe4 then (if x < 0xe2 then (if x == 0xe0 then 0xa0a0a0a0 else 0xe0e0e0e0) else if x == 0xe2 then 0x3b3b3b3b else 0x4d4d4d4d)
    else if x < 0xe8 then (if x < 0xe6 then (if x == 0xe4 then 0xaeaeaeae else 0x2a2a2a2a) else if x == 0xe6 then 0xf5f5f5f5 else 0xb0b0b0b0)
    else if x < 0xec then (if x < 0xea then (if x == 0xe8 then 0xc8c8c8c8 else 0xebebebeb) else if x == 0xea then 0xbbbbbbbb else 0x3c3c3c3c)
    else if x < 0xf0 then (if x < 0xee then (if x == 0xec then 0x83838383 else 0x53535353) else if x == 0xee then 0x99999999 else 0x61616161)
    else if x < 0xf4 then (if x < 0xf2 then (if x == 0xf0 then 0x17171717 else 0x2b2b2b2b) else if x == 0xf2 then 0x04040404 else 0x7e7e7e7e)
    else if x < 0xf8 then (if x < 0xf6 then (if x == 0xf4 then 0xbabababa else 0x77777777) else if x == 0xf6 then 0xd6d6d6d6 else 0x26262626)
    else if x < 0xfc then (if x < 0xfa then (if x == 0xf8 then 0xe1e1e1e1 else 0x69696969) else if x == 0xfa then 0x14141414 else 0x63636363)
    else (if x < 0xfe then (if x == 0xfc then 0x55555555 else 0x21212121) else if x == 0xfe then 0x0c0c0c0c else 0x7d7d7d7d)
  }

  lemma Td4First(x: byte)
    requires x < 0x40
    ensures Td4Entry(x) == Pack(R.Td4(x))
  {
  }

  lemma Td4Second(x: byte)
    requires 0x40 <= x < 0x80
    ensures Td4Entry(x) == Pack(R.Td4(x))
  {
  }

  lemma Td4Third(x: byte)
    requires 0x80 <= x < 0xc0
    ensures Td4Entry(x) == Pack(R.Td4(x))
  {
  }

  lemma Td4Fourth(x: byte)
    requires x >= 0xc0
    ensures Td4Entry(x) == Pack(R.Td4(x))
  {
  }

  lemma Td4Literal(x: byte)
    ensures Td4Entry(x) == Pack(R.Td4(x))
  {
    hide *;
    if x < 0x40 {
      Td4First(x);
    } else if x < 0x80 {
      Td4Second(x);
    } else if x < 0xc0 {
      Td4Third(x);
    } else {
      Td4Fourth(x);
    }
  }
}

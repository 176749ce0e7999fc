/** Byte arithmetic of AES: the substitution boxes (the bytes of `Te4` and `Td4`
    in aes.c) and multiplication in GF(2^8) as in section 4.2 of FIPS 197. */
module AesBytes {
  import opened Bytes

  /** The substitution box: any byte of `Te4[x]`. */
  function S(x: byte): byte {
      if x < 0x04 then (if x < 0x02 then (if x == 0x00 then 0x63 else 0x7c) else if x == 0x02 then 0x77 else 0x7b)
      else if x < 0x08 then (if x < 0x06 then (if x == 0x04 then 0xf2 else 0x6b) else if x == 0x06 then 0x6f else 0xc5)
      else if x < 0x0c then (if x < 0x0a then (if x == 0x08 then 0x30 else 0x01) else if x == 0x0a then 0x67 else 0x2b)
      else if x < 0x10 then (if x < 0x0e then (if x == 0x0c then 0xfe else 0xd7) else if x == 0x0e then 0xab else 0x76)
      else if x < 0x14 then (if x < 0x12 then (if x == 0x10 then 0xca else 0x82) else if x == 0x12 then 0xc9 else 0x7d)
      else if x < 0x18 then (if x < 0x16 then (if x == 0x14 then 0xfa else 0x59) else if x == 0x16 then 0x47 else 0xf0)
      else if x < 0x1c then (if x < 0x1a then (if x == 0x18 then 0xad else 0xd4) else if x == 0x1a then 0xa2 else 0xaf)
      else if x < 0x20 then (if x < 0x1e then (if x == 0x1c then 0x9c else 0xa4) else if x == 0x1e then 0x72 else 0xc0)
      else if x < 0x24 then (if x < 0x22 then (if x == 0x20 then 0xb7 else 0xfd) else if x == 0x22 then 0x93 else 0x26)
      else if x < 0x28 then (if x < 0x26 then (if x == 0x24 then 0x36 else 0x3f) else if x == 0x26 then 0xf7 else 0xcc)
      else if x < 0x2c then (if x < 0x2a then (if x == 0x28 then 0x34 else 0xa5) else if x == 0x2a then 0xe5 else 0xf1)
      else if x < 0x30 then (if x < 0x2e then (if x == 0x2c then 0x71 else 0xd8) else if x == 0x2e then 0x31 else 0x15)
      else if x < 0x34 then (if x < 0x32 then (if x == 0x30 then 0x04 else 0xc7) else if x == 0x32 then 0x23 else 0xc3)
      else if x < 0x38 then (if x < 0x36 then (if x == 0x34 then 0x18 else 0x96) else if x == 0x36 then 0x05 else 0x9a)
      else if x < 0x3c then (if x < 0x3a then (if x == 0x38 then 0x07 else 0x12) else if x == 0x3a then 0x80 else 0xe2)
      else if x < 0x40 then (if x < 0x3e then (if x == 0x3c then 0xeb else 0x27) else if x == 0x3e then 0xb2 else 0x75)
      else if x < 0x44 then (if x < 0x42 then (if x == 0x40 then 0x09 else 0x83) else if x == 0x42 then 0x2c else 0x1a)
      else if x < 0x48 then (if x < 0x46 then (if x == 0x44 then 0x1b else 0x6e) else if x == 0x46 then 0x5a else 0xa0)
      else if x < 0x4c then (if x < 0x4a then (if x == 0x48 then 0x52 else 0x3b) else if x == 0x4a then 0xd6 else 0xb3)
      else if x < 0x50 then (if x < 0x4e then (if x == 0x4c then 0x29 else 0xe3) else if x == 0x4e then 0x2f else 0x84)
      else if x < 0x54 then (if x < 0x52 then (if x == 0x50 then 0x53 else 0xd1) else if x == 0x52 then 0x00 else 0xed)
      else if x < 0x58 then (if x < 0x56 then (if x == 0x54 then 0x20 else 0xfc) else if x == 0x56 then 0xb1 else 0x5b)
      else if x < 0x5c then (if x < 0x5a then (if x == 0x58 then 0x6a else 0xcb) else if x == 0x5a then 0xbe else 0x39)
      else if x < 0x60 then (if x < 0x5e then (if x == 0x5c then 0x4a else 0x4c) else if x == 0x5e then 0x58 else 0xcf)
      else if x < 0x64 then (if x < 0x62 then (if x == 0x60 then 0xd0 else 0xef) else if x == 0x62 then 0xaa else 0xfb)
      else if x < 0x68 then (if x < 0x66 then (if x == 0x64 then 0x43 else 0x4d) else if x == 0x66 then 0x33 else 0x85)
      else if x < 0x6c then (if x < 0x6a then (if x == 0x68 then 0x45 else 0xf9) else if x == 0x6a then 0x02 else 0x7f)
      else if x < 0x70 then (if x < 0x6e then (if x == 0x6c then 0x50 else 0x3c) else if x == 0x6e then 0x9f else 0xa8)
      else if x < 0x74 then (if x < 0x72 then (if x == 0x70 then 0x51 else 0xa3) else if x == 0x72 then 0x40 else 0x8f)
      else if x < 0x78 then (if x < 0x76 then (if x == 0x74 then 0x92 else 0x9d) else if x == 0x76 then 0x38 else 0xf5)
      else if x < 0x7c then (if x < 0x7a then (if x == 0x78 then 0xbc else 0xb6) else if x == 0x7a then 0xda else 0x21)
      else if x < 0x80 then (if x < 0x7e then (if x == 0x7c then 0x10 else 0xff) else if x == 0x7e then 0xf3 else 0xd2)
      else if x < 0x84 then (if x < 0x82 then (if x == 0x80 then 0xcd else 0x0c) else if x == 0x82 then 0x13 else 0xec)
      else if x < 0x88 then (if x < 0x86 then (if x == 0x84 then 0x5f else 0x97) else if x == 0x86 then 0x44 else 0x17)
      else if x < 0x8c then (if x < 0x8a then (if x == 0x88 then 0xc4 else 0xa7) else if x == 0x8a then 0x7e else 0x3d)
      else if x < 0x90 then (if x < 0x8e then (if x == 0x8c then 0x64 else 0x5d) else if x == 0x8e then 0x19 else 0x73)
      else if x < 0x94 then (if x < 0x92 then (if x == 0x90 then 0x60 else 0x81) else if x == 0x92 then 0x4f else 0xdc)
      else if x < 0x98 then (if x < 0x96 then (if x == 0x94 then 0x22 else 0x2a) else if x == 0x96 then 0x90 else 0x88)
      else if x < 0x9c then (if x < 0x9a then (if x == 0x98 then 0x46 else 0xee) else if x == 0x9a then 0xb8 else 0x14)
      else if x < 0xa0 then (if x < 0x9e then (if x == 0x9c then 0xde else 0x5e) else if x == 0x9e then 0x0b else 0xdb)
      else if x < 0xa4 then (if x < 0xa2 then (if x == 0xa0 then 0xe0 else 0x32) else if x == 0xa2 then 0x3a else 0x0a)
      else if x < 0xa8 then (if x < 0xa6 then (if x == 0xa4 then 0x49 else 0x06) else if x == 0xa6 then 0x24 else 0x5c)
      else if x < 0xac then (if x < 0xaa then (if x == 0xa8 then 0xc2 else 0xd3) else if x == 0xaa then 0xac else 0x62)
      else if x < 0xb0 then (if x < 0xae then (if x == 0xac then 0x91 else 0x95) else if x == 0xae then 0xe4 else 0x79)
      else if x < 0xb4 then (if x < 0xb2 then (if x == 0xb0 then 0xe7 else 0xc8) else if x == 0xb2 then 0x37 else 0x6d)
      else if x < 0xb8 then (if x < 0xb6 then (if x == 0xb4 then 0x8d else 0xd5) else if x == 0xb6 then 0x4e else 0xa9)
      else if x < 0xbc then (if x < 0xba then (if x == 0xb8 then 0x6c else 0x56) else if x == 0xba then 0xf4 else 0xea)
      else if x < 0xc0 then (if x < 0xbe then (if x == 0xbc then 0x65 else 0x7a) else if x == 0xbe then 0xae else 0x08)
      else if x < 0xc4 then (if x < 0xc2 then (if x == 0xc0 then 0xba else 0x78) else if x == 0xc2 then 0x25 else 0x2e)
      else if x < 0xc8 then (if x < 0xc6 then (if x == 0xc4 then 0x1c else 0xa6) else if x == 0xc6 then 0xb4 else 0xc6)
      else if x < 0xcc then (if x < 0xca then (if x == 0xc8 then 0xe8 else 0xdd) else if x == 0xca then 0x74 else 0x1f)
      else if x < 0xd0 then (if x < 0xce then (if x == 0xcc then 0x4b else 0xbd) else if x == 0xce then 0x8b else 0x8a)
      else if x < 0xd4 then (if x < 0xd2 then (if x == 0xd0 then 0x70 else 0x3e) else if x == 0xd2 then 0xb5 else 0x66)
      else if x < 0xd8 then (if x < 0xd6 then (if x == 0xd4 then 0x48 else 0x03) else if x == 0xd6 then 0xf6 else 0x0e)
      else if x < 0xdc then (if x < 0xda then (if x == 0xd8 then 0x61 else 0x35) else if x == 0xda then 0x57 else 0xb9)
      else if x < 0xe0 then (if x < 0xde then (if x == 0xdc then 0x86 else 0xc1) else if x == 0xde then 0x1d else 0x9e)
      else if x < 0xe4 then (if x < 0xe2 then (if x == 0xe0 then 0xe1 else 0xf8) else if x == 0xe2 then 0x98 else 0x11)
      else if x < 0xe8 then (if x < 0xe6 then (if x == 0xe4 then 0x69 else 0xd9) else if x == 0xe6 then 0x8e else 0x94)
      else if x < 0xec then (if x < 0xea then (if x == 0xe8 then 0x9b else 0x1e) else if x == 0xea then 0x87 else 0xe9)
      else if x < 0xf0 then (if x < 0xee then (if x == 0xec then 0xce else 0x55) else if x == 0xee then 0x28 else 0xdf)
      else if x < 0xf4 then (if x < 0xf2 then (if x == 0xf0 then 0x8c else 0xa1) else if x == 0xf2 then 0x89 else 0x0d)
      else if x < 0xf8 then (if x < 0xf6 then (if x == 0xf4 then 0xbf else 0xe6) else if x == 0xf6 then 0x42 else 0x68)
      else if x < 0xfc then (if x < 0xfa then (if x == 0xf8 then 0x41 else 0x99) else if x == 0xfa then 0x2d else 0x0f)
      else if x < 0xfe then (if x == 0xfc then 0xb0 else 0x54) else if x == 0xfe then 0xbb else 0x16
  }

  /** The inverse substitution box: any byte of `Td4[x]`. */
  function Si(x: byte): byte {
      if x < 0x04 then (if x < 0x02 then (if x == 0x00 then 0x52 else 0x09) else if x == 0x02 then 0x6a else 0xd5)
      else if x < 0x08 then (if x < 0x06 then (if x == 0x04 then 0x30 else 0x36) else if x == 0x06 then 0xa5 else 0x38)
      else if x < 0x0c then (if x < 0x0a then (if x == 0x08 then 0xbf else 0x40) else if x == 0x0a then 0xa3 else 0x9e)
      else if x < 0x10 then (if x < 0x0e then (if x == 0x0c then 0x81 else 0xf3) else if x == 0x0e then 0xd7 else 0xfb)
      else if x < 0x14 then (if x < 0x12 then (if x == 0x10 then 0x7c else 0xe3) else if x == 0x12 then 0x39 else 0x82)
      else if x < 0x18 then (if x < 0x16 then (if x == 0x14 then 0x9b else 0x2f) else if x == 0x16 then 0xff else 0x87)
      else if x < 0x1c then (if x < 0x1a then (if x == 0x18 then 0x34 else 0x8e) else if x == 0x1a then 0x43 else 0x44)
      else if x < 0x20 then (if x < 0x1e then (if x == 0x1c then 0xc4 else 0xde) else if x == 0x1e then 0xe9 else 0xcb)
      else if x < 0x24 then (if x < 0x22 then (if x == 0x20 then 0x54 else 0x7b) else if x == 0x22 then 0x94 else 0x32)
      else if x < 0x28 then (if x < 0x26 then (if x == 0x24 then 0xa6 else 0xc2) else if x == 0x26 then 0x23 else 0x3d)
      else if x < 0x2c then (if x < 0x2a then (if x == 0x28 then 0xee else 0x4c) else if x == 0x2a then 0x95 else 0x0b)
      else if x < 0x30 then (if x < 0x2e then (if x == 0x2c then 0x42 else 0xfa) else if x == 0x2e then 0xc3 else 0x4e)
      else if x < 0x34 then (if x < 0x32 then (if x == 0x30 then 0x08 else 0x2e) else if x == 0x32 then 0xa1 else 0x66)
      else if x < 0x38 then (if x < 0x36 then (if x == 0x34 then 0x28 else 0xd9) else if x == 0x36 then 0x24 else 0xb2)
      else if x < 0x3c then (if x < 0x3a then (if x == 0x38 then 0x76 else 0x5b) else if x == 0x3a then 0xa2 else 0x49)
      else if x < 0x40 then (if x < 0x3e then (if x == 0x3c then 0x6d else 0x8b) else if x == 0x3e then 0xd1 else 0x25)
      else if x < 0x44 then (if x < 0x42 then (if x == 0x40 then 0x72 else 0xf8) else if x == 0x42 then 0xf6 else 0x64)
      else if x < 0x48 then (if x < 0x46 then (if x == 0x44 then 0x86 else 0x68) else if x == 0x46 then 0x98 else 0x16)
      else if x < 0x4c then (if x < 0x4a then (if x == 0x48 then 0xd4 else 0xa4) else if x == 0x4a then 0x5c else 0xcc)
      else if x < 0x50 then (if x < 0x4e then (if x == 0x4c then 0x5d else 0x65) else if x == 0x4e then 0xb6 else 0x92)
      else if x < 0x54 then (if x < 0x52 then (if x == 0x50 then 0x6c else 0x70) else if x == 0x52 then 0x48 else 0x50)
      else if x < 0x58 then (if x < 0x56 then (if x == 0x54 then 0xfd else 0xed) else if x == 0x56 then 0xb9 else 0xda)
      else if x < 0x5c then (if x < 0x5a then (if x == 0x58 then 0x5e else 0x15) else if x == 0x5a then 0x46 else 0x57)
      else if x < 0x60 then (if x < 0x5e then (if x == 0x5c then 0xa7 else 0x8d) else if x == 0x5e then 0x9d else 0x84)
      else if x < 0x64 then (if x < 0x62 then (if x == 0x60 then 0x90 else 0xd8) else if x == 0x62 then 0xab else 0x00)
      else if x < 0x68 then (if x < 0x66 then (if x == 0x64 then 0x8c else 0xbc) else if x == 0x66 then 0xd3 else 0x0a)
      else if x < 0x6c then (if x < 0x6a then (if x == 0x68 then 0xf7 else 0xe4) else if x == 0x6a then 0x58 else 0x05)
      else if x < 0x70 then (if x < 0x6e then (if x == 0x6c then 0xb8 else 0xb3) else if x == 0x6e then 0x45 else 0x06)
      else if x < 0x74 then (if x < 0x72 then (if x == 0x70 then 0xd0 else 0x2c) else if x == 0x72 then 0x1e else 0x8f)
      else if x < 0x78 then (if x < 0x76 then (if x == 0x74 then 0xca else 0x3f) else if x == 0x76 then 0x0f else 0x02)
      else if x < 0x7c then (if x < 0x7a then (if x == 0x78 then 0xc1 else 0xaf) else if x == 0x7a then 0xbd else 0x03)
      else if x < 0x80 then (if x < 0x7e then (if x == 0x7c then 0x01 else 0x13) else if x == 0x7e then 0x8a else 0x6b)
      else if x < 0x84 then (if x < 0x82 then (if x == 0x80 then 0x3a else 0x91) else if x == 0x82 then 0x11 else 0x41)
      else if x < 0x88 then (if x < 0x86 then (if x == 0x84 then 0x4f else 0x67) else if x == 0x86 then 0xdc else 0xea)
      else if x < 0x8c then (if x < 0x8a then (if x == 0x88 then 0x97 else 0xf2) else if x == 0x8a then 0xcf else 0xce)
      else if x < 0x90 then (if x < 0x8e then (if x == 0x8c then 0xf0 else 0xb4) else if x == 0x8e then 0xe6 else 0x73)
      else if x < 0x94 then (if x < 0x92 then (if x == 0x90 then 0x96 else 0xac) else if x == 0x92 then 0x74 else 0x22)
      else if x < 0x98 then (if x < 0x96 then (if x == 0x94 then 0xe7 else 0xad) else if x == 0x96 then 0x35 else 0x85)
      else if x < 0x9c then (if x < 0x9a then (if x == 0x98 then 0xe2 else 0xf9) else if x == 0x9a then 0x37 else 0xe8)
      else if x < 0xa0 then (if x < 0x9e then (if x == 0x9c then 0x1c else 0x75) else if x == 0x9e then 0xdf else 0x6e)
      else if x < 0xa4 then (if x < 0xa2 then (if x == 0xa0 then 0x47 else 0xf1) else if x == 0xa2 then 0x1a else 0x71)
      else if x < 0xa8 then (if x < 0xa6 then (if x == 0xa4 then 0x1d else 0x29) else if x == 0xa6 then 0xc5 else 0x89)
      else if x < 0xac then (if x < 0xaa then (if x == 0xa8 then 0x6f else 0xb7) else if x == 0xaa then 0x62 else 0x0e)
      else if x < 0xb0 then (if x < 0xae then (if x == 0xac then 0xaa else 0x18) else if x == 0xae then 0xbe else 0x1b)
      else if x < 0xb4 then (if x < 0xb2 then (if x == 0xb0 then 0xfc else 0x56) else if x == 0xb2 then 0x3e else 0x4b)
      else if x < 0xb8 then (if x < 0xb6 then (if x == 0xb4 then 0xc6 else 0xd2) else if x == 0xb6 then 0x79 else 0x20)
      else if x < 0xbc then (if x < 0xba then (if x == 0xb8 then 0x9a else 0xdb) else if x == 0xba then 0xc0 else 0xfe)
      else if x < 0xc0 then (if x < 0xbe then (if x == 0xbc then 0x78 else 0xcd) else if x == 0xbe then 0x5a else 0xf4)
      else if x < 0xc4 then (if x < 0xc2 then (if x == 0xc0 then 0x1f else 0xdd) else if x == 0xc2 then 0xa8 else 0x33)
      else if x < 0xc8 then (if x < 0xc6 then (if x == 0xc4 then 0x88 else 0x07) else if x == 0xc6 then 0xc7 else 0x31)
      else if x < 0xcc then (if x < 0xca then (if x == 0xc8 then 0xb1 else 0x12) else if x == 0xca then 0x10 else 0x59)
      else if x < 0xd0 then (if x < 0xce then (if x == 0xcc then 0x27 else 0x80) else if x == 0xce then 0xec else 0x5f)
      else if x < 0xd4 then (if x < 0xd2 then (if x == 0xd0 then 0x60 else 0x51) else if x == 0xd2 then 0x7f else 0xa9)
      else if x < 0xd8 then (if x < 0xd6 then (if x == 0xd4 then 0x19 else 0xb5) else if x == 0xd6 then 0x4a else 0x0d)
      else if x < 0xdc then (if x < 0xda then (if x == 0xd8 then 0x2d else 0xe5) else if x == 0xda then 0x7a else 0x9f)
      else if x < 0xe0 then (if x < 0xde then (if x == 0xdc then 0x93 else 0xc9) else if x == 0xde then 0x9c else 0xef)
      else if x < 0xe4 then (if x < 0xe2 then (if x == 0xe0 then 0xa0 else 0xe0) else if x == 0xe2 then 0x3b else 0x4d)
      else if x < 0xe8 then (if x < 0xe6 then (if x == 0xe4 then 0xae else 0x2a) else if x == 0xe6 then 0xf5 else 0xb0)
      else if x < 0xec then (if x < 0xea then (if x == 0xe8 then 0xc8 else 0xeb) else if x == 0xea then 0xbb else 0x3c)
      else if x < 0xf0 then (if x < 0xee then (if x == 0xec then 0x83 else 0x53) else if x == 0xee then 0x99 else 0x61)
      else if x < 0xf4 then (if x < 0xf2 then (if x == 0xf0 then 0x17 else 0x2b) else if x == 0xf2 then 0x04 else 0x7e)
      else if x < 0xf8 then (if x < 0xf6 then (if x == 0xf4 then 0xba else 0x77) else if x == 0xf6 then 0xd6 else 0x26)
      else if x < 0xfc then (if x < 0xfa then (if x == 0xf8 then 0xe1 else 0x69) else if x == 0xfa then 0x14 else 0x63)
      else if x < 0xfe then (if x == 0xfc then 0x55 else 0x21) else if x == 0xfe then 0x0c else 0x7d
  }

  lemma LowBoxInverse(x: byte)
    requires x < 0x80
    ensures Si(S(x)) == x
  {
  }

  lemma HighBoxInverse(x: byte)
    requires x >= 0x80
    ensures Si(S(x)) == x
  {
  }

  /** The two boxes undo each other. */
  lemma BoxInverse(x: byte)
    ensures Si(S(x)) == x
  {
    hide S, Si;
    if x < 0x80 {
      LowBoxInverse(x);
    } else {
      HighBoxInverse(x);
    }
  }

  /** Addition in the field. */
  function Xor(a: byte, b: byte): byte { a ^ b }

  lemma XorAssociates(a: byte, b: byte, c: byte)
    ensures Xor(Xor(a, b), c) == Xor(a, Xor(b, c))
  {
  }

  lemma XorCommutes(a: byte, b: byte)
    ensures Xor(a, b) == Xor(b, a)
  {
  }

  lemma XorSwap(a: byte, b: byte, c: byte, d: byte)
    ensures Xor(Xor(a, b), Xor(c, d)) == Xor(Xor(a, c), Xor(b, d))
  {
    hide Xor;
    XorAssociates(a, b, Xor(c, d));
    XorAssociates(b, c, d);
    XorCommutes(b, c);
    XorAssociates(c, b, d);
    XorAssociates(a, c, Xor(b, d));
  }

  lemma XorCancel(a: byte, b: byte)
    ensures Xor(Xor(a, b), b) == a && Xor(a, 0) == a && Xor(0, a) == a
  {
  }

  /** Multiplication by 2: the top bit is folded back with 0x1b.  The other
      factors are built from it. */
  function X2(x: byte): byte {
    var top := x >> 7;
    (x << 1) ^ top ^ (top << 1) ^ (top << 3) ^ (top << 4)
  }

  lemma X2Reduces(x: byte)
    ensures X2(x) == (x << 1) ^ (if x & 0x80 == 0 then 0 else 0x1b)
  {
  }

  function X4(x: byte): byte { X2(X2(x)) }

  function X8(x: byte): byte { X2(X4(x)) }

  function X3(x: byte): byte { Xor(X2(x), x) }

  function X9(x: byte): byte { Xor(X8(x), x) }

  function XB(x: byte): byte { Xor(X9(x), X2(x)) }

  function XD(x: byte): byte { Xor(X9(x), X4(x)) }

  function XE(x: byte): byte { Xor(Xor(X8(x), X4(x)), X2(x)) }

  lemma X2Linear(a: byte, b: byte)
    ensures X2(Xor(a, b)) == Xor(X2(a), X2(b))
  {
  }

  lemma FactorsLinear(a: byte, b: byte)
    ensures X9(Xor(a, b)) == Xor(X9(a), X9(b)) && XB(Xor(a, b)) == Xor(XB(a), XB(b))
    ensures XD(Xor(a, b)) == Xor(XD(a), XD(b)) && XE(Xor(a, b)) == Xor(XE(a), XE(b))
  {
    hide Xor, X2;
    X2Linear(a, b);
    X2Linear(X2(a), X2(b));
    X2Linear(X4(a), X4(b));
    XorSwap(X8(a), X8(b), a, b);
    XorSwap(X9(a), X9(b), X2(a), X2(b));
    XorSwap(X9(a), X9(b), X4(a), X4(b));
    XorSwap(X8(a), X8(b), X4(a), X4(b));
    XorSwap(Xor(X8(a), X4(a)), Xor(X8(b), X4(b)), X2(a), X2(b));
  }

  /** One column of the product of the matrices of InvMixColumns and
      MixColumns is a column of the identity. */
  lemma InverseColumn0(x: byte)
    ensures Xor(Xor(Xor(XE(X2(x)), XB(x)), XD(x)), X9(X3(x))) == x
    ensures Xor(Xor(Xor(X9(X2(x)), XE(x)), XB(x)), XD(X3(x))) == 0
    ensures Xor(Xor(Xor(XD(X2(x)), X9(x)), XE(x)), XB(X3(x))) == 0
    ensures Xor(Xor(Xor(XB(X2(x)), XD(x)), X9(x)), XE(X3(x))) == 0
  {
  }

  /** The same for the other columns of MixColumns. */
  lemma InverseColumn1(x: byte)
    ensures Xor(Xor(Xor(XE(X3(x)), XB(X2(x))), XD(x)), X9(x)) == 0
    ensures Xor(Xor(Xor(X9(X3(x)), XE(X2(x))), XB(x)), XD(x)) == x
    ensures Xor(Xor(Xor(XD(X3(x)), X9(X2(x))), XE(x)), XB(x)) == 0
    ensures Xor(Xor(Xor(XB(X3(x)), XD(X2(x))), X9(x)), XE(x)) == 0
  {
  }

  lemma InverseColumn2(x: byte)
    ensures Xor(Xor(Xor(XE(x), XB(X3(x))), XD(X2(x))), X9(x)) == 0
    ensures Xor(Xor(Xor(X9(x), XE(X3(x))), XB(X2(x))), XD(x)) == 0
    ensures Xor(Xor(Xor(XD(x), X9(X3(x))), XE(X2(x))), XB(x)) == x
    ensures Xor(Xor(Xor(XB(x), XD(X3(x))), X9(X2(x))), XE(x)) == 0
  {
  }

  lemma InverseColumn3(x: byte)
    ensures Xor(Xor(Xor(XE(x), XB(x)), XD(X3(x))), X9(X2(x))) == 0
    ensures Xor(Xor(Xor(X9(x), XE(x)), XB(X3(x))), XD(X2(x))) == 0
    ensures Xor(Xor(Xor(XD(x), X9(x)), XE(X3(x))), XB(X2(x))) == 0
    ensures Xor(Xor(Xor(XB(x), XD(x)), X9(X3(x))), XE(X2(x))) == x
  {
  }
}

/** The fixed tables of DES (d3des.c). */
module DesTables {
  function SP1(v: bv6): bv32 {
    if v < 0x04 then (if v < 0x02 then (if v == 0x00 then 0x01010400 else 0x00000000) else if v == 0x02 then 0x00010000 else 0x01010404)
    else if v < 0x08 then (if v < 0x06 then (if v == 0x04 then 0x01010004 else 0x00010404) else if v == 0x06 then 0x00000004 else 0x00010000)
    else if v < 0x0c then (if v < 0x0a then (if v == 0x08 then 0x00000400 else 0x01010400) else if v == 0x0a then 0x01010404 else 0x00000400)
    else if v < 0x10 then (if v < 0x0e then (if v == 0x0c then 0x01000404 else 0x01010004) else if v == 0x0e then 0x01000000 else 0x00000004)
    else if v < 0x14 then (if v < 0x12 then (if v == 0x10 then 0x00000404 else 0x01000400) else if v == 0x12 then 0x01000400 else 0x00010400)
    else if v < 0x18 then (if v < 0x16 then (if v == 0x14 then 0x00010400 else 0x01010000) else if v == 0x16 then 0x01010000 else 0x01000404)
    else if v < 0x1c then (if v < 0x1a then (if v == 0x18 then 0x00010004 else 0x01000004) else if v == 0x1a then 0x01000004 else 0x00010004)
    else if v < 0x20 then (if v < 0x1e then (if v == 0x1c then 0x00000000 else 0x00000404) else if v == 0x1e then 0x00010404 else 0x01000000)
    else if v < 0x24 then (if v < 0x22 then (if v == 0x20 then 0x00010000 else 0x01010404) else if v == 0x22 then 0x00000004 else 0x01010000)
    else if v < 0x28 then (if v < 0x26 then (if v == 0x24 then 0x01010400 else 0x01000000) else if v == 0x26 then 0x01000000 else 0x00000400)
    else if v < 0x2c then (if v < 0x2a then (if v == 0x28 then 0x01010004 else 0x00010000) else if v == 0x2a then 0x00010400 else 0x01000004)
    else if v < 0x30 then (if v < 0x2e then (if v == 0x2c then 0x00000400 else 0x00000004) else if v == 0x2e then 0x01000404 else 0x00010404)
    else if v < 0x34 then (if v < 0x32 then (if v == 0x30 then 0x01010404 else 0x00010004) else if v == 0x32 then 0x01010000 else 0x01000404)
    else if v < 0x38 then (if v < 0x36 then (if v == 0x34 then 0x01000004 else 0x00000404) else if v == 0x36 then 0x00010404 else 0x01010400)
    else if v < 0x3c then (if v < 0x3a then (if v == 0x38 then 0x00000404 else 0x01000400) else if v == 0x3a then 0x01000400 else 0x00000000)
    else (if v < 0x3e then (if v == 0x3c then 0x00010004 else 0x00010400) else if v == 0x3e then 0x00000000 else 0x01010004)
  }

  function SP2(v: bv6): bv32 {
    if v < 0x04 then (if v < 0x02 then (if v == 0x00 then 0x80108020 else 0x80008000) else if v == 0x02 then 0x00008000 else 0x00108020)
    else if v < 0x08 then (if v < 0x06 then (if v == 0x04 then 0x00100000 else 0x00000020) else if v == 0x06 then 0x80100020 else 0x80008020)
    else if v < 0x0c then (if v < 0x0a then (if v == 0x08 then 0x80000020 else 0x80108020) else if v == 0x0a then 0x80108000 else 0x80000000)
    else if v < 0x10 then (if v < 0x0e then (if v == 0x0c then 0x80008000 else 0x00100000) else if v == 0x0e then 0x00000020 else 0x80100020)
    else if v < 0x14 then (if v < 0x12 then (if v == 0x10 then 0x00108000 else 0x00100020) else if v == 0x12 then 0x80008020 else 0x00000000)
    else if v < 0x18 then (if v < 0x16 then (if v == 0x14 then 0x80000000 else 0x00008000) else if v == 0x16 then 0x00108020 else 0x80100000)
    else if v < 0x1c then (if v < 0x1a then (if v == 0x18 then 0x00100020 else 0x80000020) else if v == 0x1a then 0x00000000 else 0x00108000)
    else if v < 0x20 then (if v < 0x1e then (if v == 0x1c then 0x00008020 else 0x80108000) else if v == 0x1e then 0x80100000 else 0x00008020)
    else if v < 0x24 then (if v < 0x22 then (if v == 0x20 then 0x00000000 else 0x00108020) else if v == 0x22 then 0x80100020 else 0x00100000)
    else if v < 0x28 then (if v < 0x26 then (if v == 0x24 then 0x80008020 else 0x80100000) else if v == 0x26 then 0x80108000 else 0x00008000)
    else if v < 0x2c then (if v < 0x2a then (if v == 0x28 then 0x80100000 else 0x80008000) else if v == 0x2a then 0x00000020 else 0x80108020)
    else if v < 0x30 then (if v < 0x2e then (if v == 0x2c then 0x00108020 else 0x00000020) else if v == 0x2e then 0x00008000 else 0x80000000)
    else if v < 0x34 then (if v < 0x32 then (if v == 0x30 then 0x00008020 else 0x80108000) else if v == 0x32 then 0x00100000 else 0x80000020)
    else if v < 0x38 then (if v < 0x36 then (if v == 0x34 then 0x00100020 else 0x80008020) else if v == 0x36 then 0x80000020 else 0x00100020)
    else if v < 0x3c then (if v < 0x3a then (if v == 0x38 then 0x00108000 else 0x00000000) else if v == 0x3a then 0x80008000 else 0x00008020)
    else (if v < 0x3e then (if v == 0x3c then 0x80000000 else 0x80100020) else if v == 0x3e then 0x80108020 else 0x00108000)
  }

  function SP3(v: bv6): bv32 {
    if v < 0x04 then (if v < 0x02 then (if v == 0x00 then 0x00000208 else 0x08020200) else if v == 0x02 then 0x00000000 else 0x08020008)
    else if v < 0x08 then (if v < 0x06 then (if v == 0x04 then 0x08000200 else 0x00000000) else if v == 0x06 then 0x00020208 else 0x08000200)
    else if v < 0x0c then (if v < 0x0a then (if v == 0x08 then 0x00020008 else 0x08000008) else if v == 0x0a then 0x08000008 else 0x00020000)
    else if v < 0x10 then (if v < 0x0e then (if v == 0x0c then 0x08020208 else 0x00020008) else if v == 0x0e then 0x08020000 else 0x00000208)
    else if v < 0x14 then (if v < 0x12 then (if v == 0x10 then 0x08000000 else 0x00000008) else if v == 0x12 then 0x08020200 else 0x00000200)
    else if v < 0x18 then (if v < 0x16 then (if v == 0x14 then 0x00020200 else 0x08020000) else if v == 0x16 then 0x08020008 else 0x00020208)
    else if v < 0x1c then (if v < 0x1a then (if v == 0x18 then 0x08000208 else 0x00020200) else if v == 0x1a then 0x00020000 else 0x08000208)
    else if v < 0x20 then (if v < 0x1e then (if v == 0x1c then 0x00000008 else 0x08020208) else if v == 0x1e then 0x00000200 else 0x08000000)
    else if v < 0x24 then (if v < 0x22 then (if v == 0x20 then 0x08020200 else 0x08000000) else if v == 0x22 then 0x00020008 else 0x00000208)
    else if v < 0x28 then (if v < 0x26 then (if v == 0x24 then 0x00020000 else 0x08020200) else if v == 0x26 then 0x08000200 else 0x00000000)
    else if v < 0x2c then (if v < 0x2a then (if v == 0x28 then 0x00000200 else 0x00020008) else if v == 0x2a then 0x08020208 else 0x08000200)
    else if v < 0x30 then (if v < 0x2e then (if v == 0x2c then 0x08000008 else 0x00000200) else if v == 0x2e then 0x00000000 else 0x08020008)
    else if v < 0x34 then (if v < 0x32 then (if v == 0x30 then 0x08000208 else 0x00020000) else if v == 0x32 then 0x08000000 else 0x08020208)
    else if v < 0x38 then (if v < 0x36 then (if v == 0x34 then 0x00000008 else 0x00020208) else if v == 0x36 then 0x00020200 else 0x08000008)
    else if v < 0x3c then (if v < 0x3a then (if v == 0x38 then 0x08020000 else 0x08000208) else if v == 0x3a then 0x00000208 else 0x08020000)
    else (if v < 0x3e then (if v == 0x3c then 0x00020208 else 0x00000008) else if v == 0x3e then 0x08020008 else 0x00020200)
  }

  function SP4(v: bv6): bv32 {
    if v < 0x04 then (if v < 0x02 then (if v == 0x00 then 0x00802001 else 0x00002081) else if v == 0x02 then 0x00002081 else 0x00000080)
    else if v < 0x08 then (if v < 0x06 then (if v == 0x04 then 0x00802080 else 0x00800081) else if v == 0x06 then 0x00800001 else 0x00002001)
    else if v < 0x0c then (if v < 0x0a then (if v == 0x08 then 0x00000000 else 0x00802000) else if v == 0x0a then 0x00802000 else 0x00802081)
    else if v < 0x10 then (if v < 0x0e then (if v == 0x0c then 0x00000081 else 0x00000000) else if v == 0x0e then 0x00800080 else 0x00800001)
    else if v < 0x14 then (if v < 0x12 then (if v == 0x10 then 0x00000001 else 0x00002000) else if v == 0x12 then 0x00800000 else 0x00802001)
    else if v < 0x18 then (if v < 0x16 then (if v == 0x14 then 0x00000080 else 0x00800000) else if v == 0x16 then 0x00002001 else 0x00002080)
    else if v < 0x1c then (if v < 0x1a then (if v == 0x18 then 0x00800081 else 0x00000001) else if v == 0x1a then 0x00002080 else 0x00800080)
    else if v < 0x20 then (if v < 0x1e then (if v == 0x1c then 0x00002000 else 0x00802080) else if v == 0x1e then 0x00802081 else 0x00000081)
    else if v < 0x24 then (if v < 0x22 then (if v == 0x20 then 0x00800080 else 0x00800001) else if v == 0x22 then 0x00802000 else 0x00802081)
    else if v < 0x28 then (if v < 0x26 then (if v == 0x24 then 0x00000081 else 0x00000000) else if v == 0x26 then 0x00000000 else 0x00802000)
    else if v < 0x2c then (if v < 0x2a then (if v == 0x28 then 0x00002080 else 0x00800080) else if v == 0x2a then 0x00800081 else 0x00000001)
    else if v < 0x30 then (if v < 0x2e then (if v == 0x2c then 0x00802001 else 0x00002081) else if v == 0x2e then 0x00002081 else 0x00000080)
    else if v < 0x34 then (if v < 0x32 then (if v == 0x30 then 0x00802081 else 0x00000081) else if v == 0x32 then 0x00000001 else 0x00002000)
    else if v < 0x38 then (if v < 0x36 then (if v == 0x34 then 0x00800001 else 0x00002001) else if v == 0x36 then 0x00802080 else 0x00800081)
    else if v < 0x3c then (if v < 0x3a then (if v == 0x38 then 0x00002001 else 0x00002080) else if v == 0x3a then 0x00800000 else 0x00802001)
    else (if v < 0x3e then (if v == 0x3c then 0x00000080 else 0x00800000) else if v == 0x3e then 0x00002000 else 0x00802080)
  }

  function SP5(v: bv6): bv32 {
    if v < 0x04 then (if v < 0x02 then (if v == 0x00 then 0x00000100 else 0x02080100) else if v == 0x02 then 0x02080000 else 0x42000100)
    else if v < 0x08 then (if v < 0x06 then (if v == 0x04 then 0x00080000 else 0x00000100) else if v == 0x06 then 0x40000000 else 0x02080000)
    else if v < 0x0c then (if v < 0x0a then (if v == 0x08 then 0x40080100 else 0x00080000) else if v == 0x0a then 0x02000100 else 0x40080100)
    else if v < 0x10 then (if v < 0x0e then (if v == 0x0c then 0x42000100 else 0x42080000) else if v == 0x0e then 0x00080100 else 0x40000000)
    else if v < 0x14 then (if v < 0x12 then (if v == 0x10 then 0x02000000 else 0x40080000) else if v == 0x12 then 0x40080000 else 0x00000000)
    else if v < 0x18 then (if v < 0x16 then (if v == 0x14 then 0x40000100 else 0x42080100) else if v == 0x16 then 0x42080100 else 0x02000100)
    else if v < 0x1c then (if v < 0x1a then (if v == 0x18 then 0x42080000 else 0x40000100) else if v == 0x1a then 0x00000000 else 0x42000000)
    else if v < 0x20 then (if v < 0x1e then (if v == 0x1c then 0x02080100 else 0x02000000) else if v == 0x1e then 0x42000000 else 0x00080100)
    else if v < 0x24 then (if v < 0x22 then (if v == 0x20 then 0x00080000 else 0x42000100) else if v == 0x22 then 0x00000100 else 0x02000000)
    else if v < 0x28 then (if v < 0x26 then (if v == 0x24 then 0x40000000 else 0x02080000) else if v == 0x26 then 0x42000100 else 0x40080100)
    else if v < 0x2c then (if v < 0x2a then (if v == 0x28 then 0x02000100 else 0x40000000) else if v == 0x2a then 0x42080000 else 0x02080100)
    else if v < 0x30 then (if v < 0x2e then (if v == 0x2c then 0x40080100 else 0x00000100) else if v == 0x2e then 0x02000000 else 0x42080000)
    else if v < 0x34 then (if v < 0x32 then (if v == 0x30 then 0x42080100 else 0x00080100) else if v == 0x32 then 0x42000000 else 0x42080100)
    else if v < 0x38 then (if v < 0x36 then (if v == 0x34 then 0x02080000 else 0x00000000) else if v == 0x36 then 0x40080000 else 0x42000000)
    else if v < 0x3c then (if v < 0x3a then (if v == 0x38 then 0x00080100 else 0x02000100) else if v == 0x3a then 0x40000100 else 0x00080000)
    else (if v < 0x3e then (if v == 0x3c then 0x00000000 else 0x40080000) else if v == 0x3e then 0x02080100 else 0x40000100)
  }

  function SP6(v: bv6): bv32 {
    if v < 0x04 then (if v < 0x02 then (if v == 0x00 then 0x20000010 else 0x20400000) else if v == 0x02 then 0x00004000 else 0x20404010)
    else if v < 0x08 then (if v < 0x06 then (if v == 0x04 then 0x20400000 else 0x00000010) else if v == 0x06 then 0x20404010 else 0x00400000)
    else if v < 0x0c then (if v < 0x0a then (if v == 0x08 then 0x20004000 else 0x00404010) else if v == 0x0a then 0x00400000 else 0x20000010)
    else if v < 0x10 then (if v < 0x0e then (if v == 0x0c then 0x00400010 else 0x20004000) else if v == 0x0e then 0x20000000 else 0x00004010)
    else if v < 0x14 then (if v < 0x12 then (if v == 0x10 then 0x00000000 else 0x00400010) else if v == 0x12 then 0x20004010 else 0x00004000)
    else if v < 0x18 then (if v < 0x16 then (if v == 0x14 then 0x00404000 else 0x20004010) else if v == 0x16 then 0x00000010 else 0x20400010)
    else if v < 0x1c then (if v < 0x1a then (if v == 0x18 then 0x20400010 else 0x00000000) else if v == 0x1a then 0x00404010 else 0x20404000)
    else if v < 0x20 then (if v < 0x1e then (if v == 0x1c then 0x00004010 else 0x00404000) else if v == 0x1e then 0x20404000 else 0x20000000)
    else if v < 0x24 then (if v < 0x22 then (if v == 0x20 then 0x20004000 else 0x00000010) else if v == 0x22 then 0x20400010 else 0x00404000)
    else if v < 0x28 then (if v < 0x26 then (if v == 0x24 then 0x20404010 else 0x00400000) else if v == 0x26 then 0x00004010 else 0x20000010)
    else if v < 0x2c then (if v < 0x2a then (if v == 0x28 then 0x00400000 else 0x20004000) else if v == 0x2a then 0x20000000 else 0x00004010)
    else if v < 0x30 then (if v < 0x2e then (if v == 0x2c then 0x20000010 else 0x20404010) else if v == 0x2e then 0x00404000 else 0x20400000)
    else if v < 0x34 then (if v < 0x32 then (if v == 0x30 then 0x00404010 else 0x20404000) else if v == 0x32 then 0x00000000 else 0x20400010)
    else if v < 0x38 then (if v < 0x36 then (if v == 0x34 then 0x00000010 else 0x00004000) else if v == 0x36 then 0x20400000 else 0x00404010)
    else if v < 0x3c then (if v < 0x3a then (if v == 0x38 then 0x00004000 else 0x00400010) else if v == 0x3a then 0x20004010 else 0x00000000)
    else (if v < 0x3e then (if v == 0x3c then 0x20404000 else 0x20000000) else if v == 0x3e then 0x00400010 else 0x20004010)
  }

  function SP7(v: bv6): bv32 {
    if v < 0x04 then (if v < 0x02 then (if v == 0x00 then 0x00200000 else 0x04200002) else if v == 0x02 then 0x04000802 else 0x00000000)
    else if v < 0x08 then (if v < 0x06 then (if v == 0x04 then 0x00000800 else 0x04000802) else if v == 0x06 then 0x00200802 else 0x04200800)
    else if v < 0x0c then (if v < 0x0a then (if v == 0x08 then 0x04200802 else 0x00200000) else if v == 0x0a then 0x00000000 else 0x04000002)
    else if v < 0x10 then (if v < 0x0e then (if v == 0x0c then 0x00000002 else 0x04000000) else if v == 0x0e then 0x04200002 else 0x00000802)
    else if v < 0x14 then (if v < 0x12 then (if v == 0x10 then 0x04000800 else 0x00200802) else if v == 0x12 then 0x00200002 else 0x04000800)
    else if v < 0x18 then (if v < 0x16 then (if v == 0x14 then 0x04000002 else 0x04200000) else if v == 0x16 then 0x04200800 else 0x00200002)
    else if v < 0x1c then (if v < 0x1a then (if v == 0x18 then 0x04200000 else 0x00000800) else if v == 0x1a then 0x00000802 else 0x04200802)
    else if v < 0x20 then (if v < 0x1e then (if v == 0x1c then 0x00200800 else 0x00000002) else if v == 0x1e then 0x04000000 else 0x00200800)
    else if v < 0x24 then (if v < 0x22 then (if v == 0x20 then 0x04000000 else 0x00200800) else if v == 0x22 then 0x00200000 else 0x04000802)
    else if v < 0x28 then (if v < 0x26 then (if v == 0x24 then 0x04000802 else 0x04200002) else if v == 0x26 then 0x04200002 else 0x00000002)
    else if v < 0x2c then (if v < 0x2a then (if v == 0x28 then 0x00200002 else 0x04000000) else if v == 0x2a then 0x04000800 else 0x00200000)
    else if v < 0x30 then (if v < 0x2e then (if v == 0x2c then 0x04200800 else 0x00000802) else if v == 0x2e then 0x00200802 else 0x04200800)
    else if v < 0x34 then (if v < 0x32 then (if v == 0x30 then 0x00000802 else 0x04000002) else if v == 0x32 then 0x04200802 else 0x04200000)
    else if v < 0x38 then (if v < 0x36 then (if v == 0x34 then 0x00200800 else 0x00000000) else if v == 0x36 then 0x00000002 else 0x04200802)
    else if v < 0x3c then (if v < 0x3a then (if v == 0x38 then 0x00000000 else 0x00200802) else if v == 0x3a then 0x04200000 else 0x00000800)
    else (if v < 0x3e then (if v == 0x3c then 0x04000002 else 0x04000800) else if v == 0x3e then 0x00000800 else 0x00200002)
  }

  function SP8(v: bv6): bv32 {
    if v < 0x04 then (if v < 0x02 then (if v == 0x00 then 0x10001040 else 0x00001000) else if v == 0x02 then 0x00040000 else 0x10041040)
    else if v < 0x08 then (if v < 0x06 then (if v == 0x04 then 0x10000000 else 0x10001040) else if v == 0x06 then 0x00000040 else 0x10000000)
    else if v < 0x0c then (if v < 0x0a then (if v == 0x08 then 0x00040040 else 0x10040000) else if v == 0x0a then 0x10041040 else 0x00041000)
    else if v < 0x10 then (if v < 0x0e then (if v == 0x0c then 0x10041000 else 0x00041040) else if v == 0x0e then 0x00001000 else 0x00000040)
    else if v < 0x14 then (if v < 0x12 then (if v == 0x10 then 0x10040000 else 0x10000040) else if v == 0x12 then 0x10001000 else 0x00001040)
    else if v < 0x18 then (if v < 0x16 then (if v == 0x14 then 0x00041000 else 0x00040040) else if v == 0x16 then 0x10040040 else 0x10041000)
    else if v < 0x1c then (if v < 0x1a then (if v == 0x18 then 0x00001040 else 0x00000000) else if v == 0x1a then 0x00000000 else 0x10040040)
    else if v < 0x20 then (if v < 0x1e then (if v == 0x1c then 0x10000040 else 0x10001000) else if v == 0x1e then 0x00041040 else 0x00040000)
    else if v < 0x24 then (if v < 0x22 then (if v == 0x20 then 0x00041040 else 0x00040000) else if v == 0x22 then 0x10041000 else 0x00001000)
    else if v < 0x28 then (if v < 0x26 then (if v == 0x24 then 0x00000040 else 0x10040040) else if v == 0x26 then 0x00001000 else 0x00041040)
    else if v < 0x2c then (if v < 0x2a then (if v == 0x28 then 0x10001000 else 0x00000040) else if v == 0x2a then 0x10000040 else 0x10040000)
    else if v < 0x30 then (if v < 0x2e then (if v == 0x2c then 0x10040040 else 0x10000000) else if v == 0x2e then 0x00040000 else 0x10001040)
    else if v < 0x34 then (if v < 0x32 then (if v == 0x30 then 0x00000000 else 0x10041040) else if v == 0x32 then 0x00040040 else 0x10000040)
    else if v < 0x38 then (if v < 0x36 then (if v == 0x34 then 0x10040000 else 0x10001000) else if v == 0x36 then 0x10001040 else 0x00000000)
    else if v < 0x3c then (if v < 0x3a then (if v == 0x38 then 0x10041040 else 0x00041000) else if v == 0x3a then 0x00041000 else 0x00001040)
    else (if v < 0x3e then (if v == 0x3c then 0x00001040 else 0x00040040) else if v == 0x3e then 0x10000000 else 0x10041000)
  }

  type KeyBit = i: nat | i < 64

  type Rotation = i: nat | i <= 28

  type ScheduleBit = i: nat | i < 56

  function Pc1(): (t: seq<KeyBit>)
    ensures |t| == 56
  {
    [56, 48, 40, 32, 24, 16, 8, 0, 57, 49, 41, 33, 25, 17]
    + [9, 1, 58, 50, 42, 34, 26, 18, 10, 2, 59, 51, 43, 35]
    + [62, 54, 46, 38, 30, 22, 14, 6, 61, 53, 45, 37, 29, 21]
    + [13, 5, 60, 52, 44, 36, 28, 20, 12, 4, 27, 19, 11, 3]
  }

  function TotRot(): (t: seq<Rotation>)
    ensures |t| == 16
  {
    [1, 2, 4, 6, 8, 10, 12, 14]
    + [15, 17, 19, 21, 23, 25, 27, 28]
  }

  function Pc2(): (t: seq<ScheduleBit>)
    ensures |t| == 48
  {
    [13, 16, 10, 23, 0, 4, 2, 27, 14, 5, 20, 9]
    + [22, 18, 11, 3, 25, 7, 15, 6, 26, 19, 12, 1]
    + [40, 51, 30, 36, 46, 54, 29, 39, 50, 44, 32, 47]
    + [43, 48, 38, 55, 33, 52, 45, 41, 49, 35, 28, 31]
  }

  function BigByte(j: nat): bv32
    requires j < 24
  {
    ([0x800000, 0x400000, 0x200000, 0x100000, 0x80000, 0x40000, 0x20000, 0x10000]
     + [0x8000, 0x4000, 0x2000, 0x1000, 0x800, 0x400, 0x200, 0x100]
     + [0x80, 0x40, 0x20, 0x10, 0x8, 0x4, 0x2, 0x1])[j]
  }

  function ByteBit(m: nat): bv8
    requires m < 8
  {
    [0x01, 0x02, 0x04, 0x08, 0x10, 0x20, 0x40, 0x80][m]
  }
}

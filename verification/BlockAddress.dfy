/**
 Physical page addresses of blockmanager/base_block_manager.h: 64 parallel units, 256 pages per block,
 16384 pages per segment.
 */
module BlockAddress {

  const PUNIT := 64
  const PPB := 256
  const PPS := 16384

  /** The address get_page_num builds from a block of segment seg on unit punit, and PPAMAKER likewise. */
  function Encode(seg: nat, page: nat, punit: nat): nat { seg * PPS + page * 64 + punit }

  /** GETBLOCKIDX: the index in base_block, where block (seg, punit) is stored at seg * PUNIT + punit. */
  function BlockIdx(ppa: nat): nat { ppa / PPS * PUNIT + ppa % PUNIT }

  /** GETPAGEIDX */
  function PageIdx(ppa: nat): nat { ppa / 64 % 256 }

  /** Decoding an issued address gives back its block and page. */
  lemma DecodeEncode(seg: nat, page: nat, punit: nat)
    requires page < PPB && punit < PUNIT
    ensures var a := Encode(seg, page, punit);
            a / PPS == seg && PageIdx(a) == page && a % PUNIT == punit && BlockIdx(a) == seg * PUNIT + punit
  {
    var a := Encode(seg, page, punit);
    assert a / 64 == seg * 256 + page;
    assert a % 64 == punit;
    assert a / 16384 == seg;
  }

  /** Every address is the encoding of what it decodes to. */
  lemma EncodeDecode(a: nat)
    ensures Encode(a / PPS, PageIdx(a), a % PUNIT) == a
  {
    assert a == 64 * (a / 64) + a % 64;
    assert a / 64 == 256 * (a / 64 / 256) + a / 64 % 256;
    assert a / 64 / 256 == a / 16384;
  }

  /** Different blocks or pages have different addresses. */
  lemma AddressesDiffer(seg: nat, page: nat, punit: nat, seg': nat, page': nat, punit': nat)
    requires page < PPB && punit < PUNIT && page' < PPB && punit' < PUNIT
    requires Encode(seg, page, punit) == Encode(seg', page', punit')
    ensures seg == seg' && page == page' && punit == punit'
  {
    DecodeEncode(seg, page, punit);
    DecodeEncode(seg', page', punit');
  }
}

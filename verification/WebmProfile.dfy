/**
 * The WebM guidelines' support table and the schema's master elements, as src/webm.rs keys them.
 */
module WebmProfile {

  datatype Support = Supported | Deprecated | Unsupported | Unlisted

  predicate IsUnsupported(id: nat) {
    || (id < 0x100 && (
         id == 0x89 || id == 0x8E || id == 0x8F || id == 0x96 || id == 0x97 || id == 0x98 || id == 0xA4 ||
         id == 0xA7 || id == 0xAA || id == 0xAF || id == 0xBF || id == 0xC0 || id == 0xC1 || id == 0xC4 ||
         id == 0xC6 || id == 0xC7 || id == 0xC8 || id == 0xC9 || id == 0xCA || id == 0xCB || id == 0xCD ||
         id == 0xCE || id == 0xCF || id == 0xDB || id == 0xE2 || id == 0xE3 || id == 0xE4 || id == 0xE5 ||
         id == 0xE6 || id == 0xE9 || id == 0xEA || id == 0xEB || id == 0xED || id == 0xFA || id == 0xFD))
    || (0x100 <= id < 0x1_0000 && (
         id == 0x4254 || id == 0x4255 || id == 0x4444 || id == 0x450D || id == 0x4598 || id == 0x45BC ||
         id == 0x45BD || id == 0x45DB || id == 0x45DD || id == 0x465C || id == 0x4660 || id == 0x4661 ||
         id == 0x4662 || id == 0x466E || id == 0x4675 || id == 0x467E || id == 0x46AE || id == 0x47E3 ||
         id == 0x47E4 || id == 0x47E5 || id == 0x47E6 || id == 0x5034 || id == 0x535F || id == 0x537F ||
         id == 0x55EE || id == 0x5854 || id == 0x58D7 || id == 0x61A7 || id == 0x63C3 || id == 0x63C4 ||
         id == 0x63C6 || id == 0x63C9 || id == 0x6532 || id == 0x6624 || id == 0x66A5 || id == 0x66BF ||
         id == 0x66FC || id == 0x6911 || id == 0x6922 || id == 0x6924 || id == 0x6933 || id == 0x6944 ||
         id == 0x6955 || id == 0x69A5 || id == 0x69BF || id == 0x69FC || id == 0x6DE7 || id == 0x6DF8 ||
         id == 0x6E67 || id == 0x6EBC || id == 0x6FAB || id == 0x7384 || id == 0x73A4 || id == 0x7446 ||
         id == 0x7D7B || id == 0x7E5B || id == 0x7E7B || id == 0x7E8A || id == 0x7E9A || id == 0x7EA5 ||
         id == 0x7EB5))
    || (0x1_0000 <= id < 0x100_0000 && (
         id == 0x23314F || id == 0x234E7A || id == 0x26B240 || id == 0x2EB524 || id == 0x2FB523 || id == 0x3A9697 ||
         id == 0x3B4040 || id == 0x3C83AB || id == 0x3CB923 || id == 0x3E83BB || id == 0x3EB923))
    || (0x100_0000 <= id && (
         id == 0x1941A469 || id == 0x1B538667))
  }

  predicate IsDeprecated(id: nat) {
    || (id < 0x100 && (
         id == 0xA2 || id == 0xCC || id == 0xE8))
    || (0x1_0000 <= id < 0x100_0000 && (
         id == 0x2383E3))
  }

  predicate IsSupported(id: nat) {
    || (id < 0x100 && (
         id == 0x80 || id == 0x83 || id == 0x85 || id == 0x86 || id == 0x88 || id == 0x91 || id == 0x92 ||
         id == 0x9A || id == 0x9B || id == 0x9C || id == 0x9F || id == 0xA0 || id == 0xA1 || id == 0xA3 ||
         id == 0xA5 || id == 0xA6 || id == 0xAB || id == 0xAE || id == 0xB0 || id == 0xB2 || id == 0xB3 ||
         id == 0xB5 || id == 0xB6 || id == 0xB7 || id == 0xB9 || id == 0xBA || id == 0xBB || id == 0xD7 ||
         id == 0xE0 || id == 0xE1 || id == 0xE7 || id == 0xEC || id == 0xEE || id == 0xF0 || id == 0xF1 ||
         id == 0xF7 || id == 0xFB))
    || (0x100 <= id < 0x1_0000 && (
         id == 0x4282 || id == 0x4285 || id == 0x4286 || id == 0x4287 || id == 0x42F2 || id == 0x42F3 ||
         id == 0x42F7 || id == 0x437C || id == 0x437E || id == 0x4461 || id == 0x447A || id == 0x4484 ||
         id == 0x4485 || id == 0x4487 || id == 0x4489 || id == 0x45A3 || id == 0x45B9 || id == 0x47E1 ||
         id == 0x47E2 || id == 0x47E7 || id == 0x47E8 || id == 0x4D80 || id == 0x4DBB || id == 0x5031 ||
         id == 0x5032 || id == 0x5033 || id == 0x5035 || id == 0x536E || id == 0x5378 || id == 0x53AB ||
         id == 0x53AC || id == 0x53B8 || id == 0x53C0 || id == 0x54AA || id == 0x54B0 || id == 0x54B2 ||
         id == 0x54B3 || id == 0x54BA || id == 0x54BB || id == 0x54CC || id == 0x54DD || id == 0x55AA ||
         id == 0x55B0 || id == 0x55B1 || id == 0x55B2 || id == 0x55B3 || id == 0x55B4 || id == 0x55B5 ||
         id == 0x55B6 || id == 0x55B7 || id == 0x55B8 || id == 0x55B9 || id == 0x55BA || id == 0x55BB ||
         id == 0x55BC || id == 0x55BD || id == 0x55D0 || id == 0x55D1 || id == 0x55D2 || id == 0x55D3 ||
         id == 0x55D4 || id == 0x55D5 || id == 0x55D6 || id == 0x55D7 || id == 0x55D8 || id == 0x55D9 ||
         id == 0x55DA || id == 0x5654 || id == 0x56AA || id == 0x56BB || id == 0x5741 || id == 0x6240 ||
         id == 0x6264 || id == 0x63A2 || id == 0x63C0 || id == 0x63C5 || id == 0x63CA || id == 0x67C8 ||
         id == 0x68CA || id == 0x6D80 || id == 0x7373 || id == 0x73C4 || id == 0x73C5 || id == 0x75A1 ||
         id == 0x75A2 || id == 0x78B5 || id == 0x7BA9))
    || (0x1_0000 <= id < 0x100_0000 && (
         id == 0x22B59C || id == 0x23E383 || id == 0x258688 || id == 0x2AD7B1))
    || (0x100_0000 <= id && (
         id == 0x1043A770 || id == 0x114D9B74 || id == 0x1254C367 || id == 0x1549A966 || id == 0x1654AE6B ||
         id == 0x18538067 || id == 0x1A45DFA3 || id == 0x1C53BB6B || id == 0x1F43B675))
  }

  /** An ID the guidelines table does not list is `Unlisted`. */
  function ElementSupport(id: nat): Support {
    if IsUnsupported(id) then Unsupported
    else if IsDeprecated(id) then Deprecated
    else if IsSupported(id) then Supported
    else Unlisted
  }

  /** What a strict WebM file may not contain. */
  predicate OffProfile(id: nat) {
    IsUnsupported(id) || IsDeprecated(id)
  }

  /** The masters the scanner descends into. */
  predicate IsMaster(id: nat) {
    || (id < 0x100 && (
         id == 0x80 || id == 0x8E || id == 0x8F || id == 0xA0 || id == 0xA6 || id == 0xAE || id == 0xB6 ||
         id == 0xB7 || id == 0xBB || id == 0xC8 || id == 0xDB || id == 0xE0 || id == 0xE1 || id == 0xE2 ||
         id == 0xE3 || id == 0xE4 || id == 0xE8 || id == 0xE9))
    || (0x100 <= id < 0x1_0000 && (
         id == 0x41E4 || id == 0x4281 || id == 0x45B9 || id == 0x47E7 || id == 0x4DBB || id == 0x5034 ||
         id == 0x5035 || id == 0x55B0 || id == 0x55D0 || id == 0x5854 || id == 0x61A7 || id == 0x6240 ||
         id == 0x63C0 || id == 0x6624 || id == 0x67C8 || id == 0x6911 || id == 0x6924 || id == 0x6944 ||
         id == 0x6D80 || id == 0x7373 || id == 0x75A1 || id == 0x7670 || id == 0x7E5B || id == 0x7E7B))
    || (0x100_0000 <= id && (
         id == 0x1043A770 || id == 0x114D9B74 || id == 0x1254C367 || id == 0x1549A966 || id == 0x1654AE6B ||
         id == 0x18538067 || id == 0x1941A469 || id == 0x1A45DFA3 || id == 0x1B538667 || id == 0x1C53BB6B ||
         id == 0x1F43B675))
  }
}

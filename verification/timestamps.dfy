/**
 * The evaluation date the orchestration handler stores: the ISO-format
 * timestamp of the current time with every `:` and every `.` replaced by
 * `_`, so that the value is safe to use as an attribute name.
 */
module Timestamps {

  /** `s.replace(from, to)` for single characters. */
  function Replace(s: string, from: char, to: char): (r: string)
    ensures |r| == |s|
    ensures forall i | 0 <= i < |s| :: r[i] == if s[i] == from then to else s[i]
  {
    if s == [] then [] else [if s[0] == from then to else s[0]] + Replace(s[1..], from, to)
  }

  /** `iso.replace(':', '_').replace('.', '_')` */
  function Sanitise(iso: string): (r: string)
    ensures |r| == |iso|
    ensures ':' !in r && '.' !in r
    ensures forall i | 0 <= i < |iso| :: r[i] == if iso[i] == ':' || iso[i] == '.' then '_' else iso[i]
  {
    Replace(Replace(iso, ':', '_'), '.', '_')
  }

  /** Sanitising a sanitised date changes nothing. */
  lemma SanitiseIdempotent(iso: string)
    ensures Sanitise(Sanitise(iso)) == Sanitise(iso)
  {
  }
}

/**
 * The shape of the `students-evaluation` table that both handlers use: an
 * item is addressed by the composite key (`students_id`, `period`) and is a
 * map from attribute names to attribute values.
 */
module Records {

  datatype Key = Key(studentsId: string, period: string)

  /** A DynamoDB attribute value: a string, a number or a list. */
  datatype AttrValue = S(text: string) | N(number: int) | L(elements: seq<AttrValue>)

  type Item = map<string, AttrValue>
}

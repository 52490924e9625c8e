/** The shapes declared in types.ts: the three screens of the app and one drawn set. */
module Types {

  /** An optional value; `None` stands for TypeScript's `undefined`. */
  datatype Option<+T> = None | Some(value: T)

  /** The screen the app shows (INTRO, EXCLUSION, GENERATION). */
  datatype AppStep = Intro | Exclusion | Generation

  /** One drawn set of numbers; `timestamp` is the millisecond clock reading at creation. */
  datatype LottoSet = LottoSet(id: string, numbers: seq<int>, timestamp: int, aiComment: Option<string>)
}

/** Shared vocabulary: Java's null, thrown exceptions, JDBC connections and
    the two string tests the core relies on (String.contains and a
    `glob:**<suffix>` path matcher). */
module Common {

  /** A Java reference that may be null: None stands for null. */
  datatype Option<T> = None | Some(value: T)

  /** A thrown Java exception, identified by what its toString() yields. */
  datatype Exception = Exception(description: string)

  /** Either a value or the exception thrown instead of producing it. */
  datatype Result<T> = Ok(value: T) | Err(error: Exception)

  /** A live java.sql.Connection: an identity and the product name its
      DatabaseMetaData reports. */
  datatype Connection = Connection(id: nat, productName: string)

  /** `k` occurs in `s` starting at index `i`. */
  predicate OccursAt(s: string, k: string, i: nat)
  {
    i + |k| <= |s| && s[i..i + |k|] == k
  }

  /** String.contains: `k` is a substring of `s` (the empty string is a
      substring of every string). */
  predicate Contains(s: string, k: string)
  {
    exists i: nat :: i <= |s| && OccursAt(s, k, i)
  }

  /** A PathMatcher for `glob:**<suffix>`: `**` crosses directory
      boundaries, so the whole path only has to end with `suffix`. */
  predicate MatchesGlob(path: string, suffix: string)
  {
    |suffix| <= |path| && path[|path| - |suffix|..] == suffix
  }
}

/** What the tables' cached lists are made of: the lists successful fetches
    delivered, oldest first. */
module FetchHistory {
  /** What a cached list holds: the initial empty list, or the list that the
      last successful fetch delivered. */
  function Latest<T>(lists: seq<seq<T>>): seq<T>
  {
    if lists == [] then [] else lists[|lists| - 1]
  }
}

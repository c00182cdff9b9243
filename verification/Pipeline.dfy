/**
 Stateful processors, and the law of composition: working event by event through
 two of them is the same as running the second on all that the first puts out.
 A processor is any deterministic machine; it may fail on a push or on its close.
 */
module Pipeline {
  import opened Wrappers

  datatype Processor<!S, !A, !B> = Processor(
    push: (S, A) -> Option<(S, seq<B>)>,
    close: S -> Option<(S, seq<B>)>)

  /** All of xs pushed in turn: the state after it and all that was put out, or nothing when a push fails. */
  function Feed<S, A, B>(p: Processor<S, A, B>, s: S, xs: seq<A>): Option<(S, seq<B>)>
    decreases |xs|
  {
    if xs == [] then Some((s, []))
    else match p.push(s, xs[0])
      case None => None
      case Some((s1, out)) =>
        match Feed(p, s1, xs[1..])
        case None => None
        case Some((s2, rest)) => Some((s2, out + rest))
  }

  /** A processor's complete output: all pushes, then its close. */
  function Whole<S, A, B>(p: Processor<S, A, B>, s: S, xs: seq<A>): Option<(S, seq<B>)> {
    match Feed(p, s, xs)
    case None => None
    case Some((s1, out)) =>
      match p.close(s1)
      case None => None
      case Some((s2, last)) => Some((s2, out + last))
  }

  /** A result with some output in front of it. */
  function After<S, B>(out: seq<B>, r: Option<(S, seq<B>)>): Option<(S, seq<B>)> {
    match r case None => None case Some((s, rest)) => Some((s, out + rest))
  }

  lemma WholeStep<S, A, B>(p: Processor<S, A, B>, s: S, xs: seq<A>, s1: S, out: seq<B>)
    requires xs != [] && p.push(s, xs[0]) == Some((s1, out))
    ensures Whole(p, s, xs) == After(out, Whole(p, s1, xs[1..]))
  {
    match Feed(p, s1, xs[1..]) {
      case None =>
      case Some((s2, more)) =>
        match p.close(s2) {
          case None =>
          case Some((s3, last)) => assert out + (more + last) == (out + more) + last;
        }
    }
  }

  /** First a, then b from where a left off. */
  function FeedBoth<S, A, B>(p: Processor<S, A, B>, s: S, a: seq<A>, b: seq<A>): Option<(S, seq<B>)> {
    match Feed(p, s, a) case None => None case Some((s1, out)) => After(out, Feed(p, s1, b))
  }

  lemma {:induction false} FeedConcat<S, A, B>(p: Processor<S, A, B>, s: S, a: seq<A>, b: seq<A>)
    ensures Feed(p, s, a + b) == FeedBoth(p, s, a, b)
    decreases |a|
  {
    if a == [] {
      assert a + b == b;
      match Feed(p, s, b) {
        case None =>
        case Some((s2, rest)) => assert [] + rest == rest;
      }
    } else {
      assert (a + b)[1..] == a[1..] + b;
      match p.push(s, a[0]) {
        case None =>
        case Some((s1, out)) =>
          FeedConcat(p, s1, a[1..], b);
          match Feed(p, s1, a[1..]) {
            case None =>
            case Some((s2, more)) =>
              match Feed(p, s2, b) {
                case None =>
                case Some((s3, rest)) => assert out + (more + rest) == (out + more) + rest;
              }
          }
      }
    }
  }

  // ------------------------------------------------------------------
  // Two processors, one after the other
  // ------------------------------------------------------------------

  /** The second gets what the first puts out; when the first closes, its last output still goes through the second. */
  function Then<S, T, A, B, C>(p: Processor<S, A, B>, q: Processor<T, B, C>): Processor<(S, T), A, C> {
    Processor(
      (st: (S, T), x: A) => match p.push(st.0, x)
        case None => None
        case Some((s1, ys)) =>
          match Feed(q, st.1, ys) { case None => None case Some((t1, zs)) => Some(((s1, t1), zs)) },
      (st: (S, T)) => match p.close(st.0)
        case None => None
        case Some((s1, ys)) =>
          match Feed(q, st.1, ys)
          case None => None
          case Some((t1, zs)) =>
            match q.close(t1) { case None => None case Some((t2, last)) => Some(((s1, t2), zs + last)) })
  }

  /** A result with the first processor's state beside it. */
  function Beside<S, T, C>(s: S, r: Option<(T, seq<C>)>): Option<((S, T), seq<C>)> {
    match r case None => None case Some((t, out)) => Some(((s, t), out))
  }

  /** The pushes of the first processor, and all they put out pushed into the second. */
  function FeedThrough<S, T, A, B, C>(p: Processor<S, A, B>, q: Processor<T, B, C>, s: S, t: T, xs: seq<A>)
    : Option<((S, T), seq<C>)>
  {
    match Feed(p, s, xs) case None => None case Some((s1, ys)) => Beside(s1, Feed(q, t, ys))
  }

  /** Stage by stage: the complete output of the first processor through the second, and its complete output. */
  function InStages<S, T, A, B, C>(p: Processor<S, A, B>, q: Processor<T, B, C>, s: S, t: T, xs: seq<A>)
    : Option<((S, T), seq<C>)>
  {
    match Whole(p, s, xs) case None => None case Some((s1, ys)) => Beside(s1, Whole(q, t, ys))
  }

  lemma {:induction false} ThenFeeds<S, T, A, B, C>(p: Processor<S, A, B>, q: Processor<T, B, C>, s: S, t: T, xs: seq<A>)
    ensures Feed(Then(p, q), (s, t), xs) == FeedThrough(p, q, s, t, xs)
    decreases |xs|
  {
    if xs != [] {
      match p.push(s, xs[0]) {
        case None =>
        case Some((s1, ys)) =>
          match Feed(p, s1, xs[1..]) {
            case None =>
              match Feed(q, t, ys) {
                case None =>
                case Some((t1, zs)) => ThenFeeds(p, q, s1, t1, xs[1..]);
              }
            case Some((s2, more)) =>
              FeedConcat(q, t, ys, more);
              match Feed(q, t, ys) {
                case None =>
                case Some((t1, zs)) => ThenFeeds(p, q, s1, t1, xs[1..]);
              }
          }
      }
    }
  }

  /**
   The law of composition.  Pushing each event through both processors and closing
   them in turn puts out, in the same states, what the second makes of the complete
   output of the first, its close output included; it fails exactly when that fails.
   */
  lemma ThenIsStaged<S, T, A, B, C>(p: Processor<S, A, B>, q: Processor<T, B, C>, s: S, t: T, xs: seq<A>)
    ensures Whole(Then(p, q), (s, t), xs) == InStages(p, q, s, t, xs)
  {
    ThenFeeds(p, q, s, t, xs);
    match Feed(p, s, xs) {
      case None =>
      case Some((s1, ys)) =>
        match p.close(s1) {
          case None =>
          case Some((s2, more)) =>
            FeedConcat(q, t, ys, more);
            match Feed(q, t, ys) {
              case None =>
              case Some((t1, zs)) =>
                match Feed(q, t1, more) {
                  case None =>
                  case Some((t2, zs2)) =>
                    match q.close(t2) {
                      case None =>
                      case Some((t3, last)) => assert zs + (zs2 + last) == (zs + zs2) + last;
                    }
                }
            }
        }
    }
  }
}

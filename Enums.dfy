/** The socket facings and wire modes of the flow canvas. */
module Enums {

  /** Where on a component a wire is attached. The value of each facing is the
      one the Python `Socket` enum assigns; `None` is a placeholder that no face carries. */
  datatype Socket = None | Top | Right | Bottom | Left
  {
    function Value(): nat
    {
      match this
      case None => 0
      case Top => 1
      case Right => 2
      case Bottom => 3
      case Left => 4
    }

    /** True when `this` and `s` face in opposite directions, decided as the
        program does: by a value difference of exactly two. Besides the two
        antipodal face pairs this also pairs `None` with `Right`. */
    predicate OppositeOf(s: Socket)
      ensures OppositeOf(s) <==>
                (this == Top && s == Bottom) || (this == Bottom && s == Top)
                || (this == Left && s == Right) || (this == Right && s == Left)
                || (this == None && s == Right) || (this == Right && s == None)
    {
      Abs(s.Value() - this.Value()) == 2
    }
  }

  /** The sockets that name a real face of a component. */
  type FaceSocket = s: Socket | s != Socket.None witness Socket.Top

  /** Top and Bottom face along the vertical axis; Left and Right along the horizontal one. */
  predicate IsVertical(s: Socket)
  {
    s == Top || s == Bottom
  }

  function Abs(n: int): (r: nat)
    ensures r == n || r == -n
  {
    if n < 0 then -n else n
  }

  /** The usage and colour class of a wire; the values are those of
      the Python `Mode` enum. */
  datatype Mode = Normal | True | False | Error
  {
    function Value(): nat
    {
      match this
      case Normal => 0
      case True => 1
      case False => 2
      case Error => 4
    }
  }

  /** A wire built without an explicit mode is a normal one. */
  const DefaultMode: Mode := Normal

  /** Being opposite does not depend on the order of the two sockets. */
  lemma OppositeSymmetric(a: Socket, b: Socket)
    ensures a.OppositeOf(b) <==> b.OppositeOf(a)
  {
  }

  /** No socket faces away from itself. */
  lemma NotOppositeOfItself(s: Socket)
    ensures !s.OppositeOf(s)
  {
  }

  /** Among real faces, exactly the two antipodal pairs are opposite; every
      pair of adjacent faces (value difference one or three) is not. */
  lemma FacesOppositeIff(a: FaceSocket, b: FaceSocket)
    ensures a.OppositeOf(b) <==> a != b && IsVertical(a) == IsVertical(b)
  {
  }

  /** The value-difference rule makes the placeholder `None` opposite of `Right`. */
  lemma NoneOppositeOfRight()
    ensures Socket.None.OppositeOf(Right) && Right.OppositeOf(Socket.None)
  {
  }

  /** The four modes carry pairwise distinct values. */
  lemma ModeValuesDistinct(a: Mode, b: Mode)
    ensures a.Value() == b.Value() <==> a == b
  {
  }
}

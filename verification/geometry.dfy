/** The part of the matter-js body model the game relies on: axis-aligned rectangles given
    by their centre and size, moved by `setPosition` and `translate`. */
module Geometry {

  datatype Vec = Vec(x: real, y: real)

  /** A rectangle body as built by `Bodies.rectangle(x, y, width, height, options)`:
      `position` is the centre; the bounds are derived from it. */
  datatype Body = Body(position: Vec, width: real, height: real, isStatic: bool)
  {
    function Left(): real { position.x - width / 2.0 }
    function Right(): real { position.x + width / 2.0 }
    function Top(): real { position.y - height / 2.0 }
    function Bottom(): real { position.y + height / 2.0 }
  }

  function Rectangle(x: real, y: real, width: real, height: real, isStatic: bool): Body {
    Body(Vec(x, y), width, height, isStatic)
  }

  /** `Body.setPosition`: moves the centre to `p`, keeping the size. */
  function SetPosition(b: Body, p: Vec): Body {
    b.(position := p)
  }

  /** `Body.translate`: moves the centre by `d`, keeping the size. */
  function Translate(b: Body, d: Vec): Body {
    b.(position := Vec(b.position.x + d.x, b.position.y + d.y))
  }

  /** The `[width, height]` pair an entity records beside its body for the renderers. */
  datatype Size = Size(width: real, height: real)

  /** One game-engine entity: a body together with its recorded size. */
  datatype Entity = Entity(body: Body, size: Size)
  {
    /** The recorded size is the size of the body. */
    predicate SizeMatchesBody() {
      size == Size(body.width, body.height)
    }

    function X(): real { body.position.x }
  }
}

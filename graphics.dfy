/** The part of the WebGL context the frame loop depends on, as a record of
    state: which buffers are bound, which vertex buffer the position
    attribute reads, the values of the color and model-view uniforms, and
    the clear and draw commands issued so far. Shader compilation, buffer
    upload, the projection matrix and rasterisation are not modelled. */
module Graphics {
  import opened Geometry

  datatype Option<T> = None | Some(value: T)

  /** The six buffers created at startup: a vertex and an index buffer for
      each shape. */
  datatype Buffer = Vertices(shape: ShapeId) | Indices(shape: ShapeId)

  datatype Color = Color(r: real, g: real, b: real, a: real)

  const BLACK: Color := Color(0.0, 0.0, 0.0, 1.0)
  const GRAY: Color := Color(0.2, 0.2, 0.2, 1.0)
  const WHITE: Color := Color(1.0, 1.0, 1.0, 1.0)
  const RED: Color := Color(1.0, 0.0, 0.0, 1.0)
  /** The value a `vec4` uniform holds before anything is uploaded. */
  const ZERO_COLOR: Color := Color(0.0, 0.0, 0.0, 0.0)

  /** The value of the model-view uniform: never uploaded (the all-zero
      matrix a uniform starts with), or the identity translated by a
      vector, which is all `mat4.identity` and `mat4.translate` build here. */
  datatype Matrix = Unset | Translate(vector: Vec3)

  /** What the context is asked to do: clear the screen, or draw `count`
      indices as triangles with the current bindings and uniforms. */
  datatype Command =
    | Clear(clearColor: Color)
    | Draw(vertices: Option<Buffer>, indices: Option<Buffer>, color: Color, modelView: Matrix, count: nat)

  class Gl {
    /** The buffers bound to `ARRAY_BUFFER` and `ELEMENT_ARRAY_BUFFER`. */
    var arrayBuffer: Option<Buffer>
    var elementBuffer: Option<Buffer>
    /** The vertex buffer `aVertexPosition` reads: captured from
        `ARRAY_BUFFER` by `vertexAttribPointer`, not by later binds. */
    var attribBuffer: Option<Buffer>
    /** The `uColor` and `uModelViewMatrix` uniforms. */
    var color: Color
    var modelView: Matrix
    /** Every clear and draw issued, oldest first. */
    var commands: seq<Command>

    /** The context as the startup code leaves it: each buffer is bound in
        turn to be filled, the lane marking's last; no attribute pointer
        is set and no uniform written. */
    constructor ()
      ensures arrayBuffer == Some(Vertices(LaneShape)) && elementBuffer == Some(Indices(LaneShape))
      ensures attribBuffer == None && color == ZERO_COLOR && modelView == Unset
      ensures commands == []
    {
      arrayBuffer := Some(Vertices(LaneShape));
      elementBuffer := Some(Indices(LaneShape));
      attribBuffer := None;
      color := ZERO_COLOR;
      modelView := Unset;
      commands := [];
    }

    /** `gl.clearColor(c)` followed by `gl.clear(...)`. */
    method ClearScreen(c: Color)
      modifies this`commands
      ensures commands == old(commands) + [Clear(c)]
    {
      commands := commands + [Clear(c)];
    }

    method BindArrayBuffer(b: Buffer)
      modifies this`arrayBuffer
      ensures arrayBuffer == Some(b)
    {
      arrayBuffer := Some(b);
    }

    method BindElementBuffer(b: Buffer)
      modifies this`elementBuffer
      ensures elementBuffer == Some(b)
    {
      elementBuffer := Some(b);
    }

    /** Points the position attribute at whatever `ARRAY_BUFFER` holds now. */
    method VertexAttribPointer()
      modifies this`attribBuffer
      ensures attribBuffer == arrayBuffer
    {
      attribBuffer := arrayBuffer;
    }

    /** `gl.uniform4f(uColor, ...)`. */
    method SetColor(c: Color)
      modifies this`color
      ensures color == c
    {
      color := c;
    }

    /** `gl.uniformMatrix4fv(uModelViewMatrix, false, m)`. */
    method SetModelView(m: Matrix)
      modifies this`modelView
      ensures modelView == m
    {
      modelView := m;
    }

    /** `gl.drawElements(gl.TRIANGLES, count, gl.UNSIGNED_SHORT, 0)`: draws
        with the current attribute buffer, element buffer and uniforms. */
    method DrawElements(count: nat)
      modifies this`commands
      ensures commands == old(commands) + [Draw(attribBuffer, elementBuffer, color, modelView, count)]
    {
      commands := commands + [Draw(attribBuffer, elementBuffer, color, modelView, count)];
    }
  }
}

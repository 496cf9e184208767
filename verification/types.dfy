/** Values shared by the accumulation controller: render-target sizes and the
    abstract events that stand for the engine and GPU calls the controller makes. */
module Types {

  /** The conventional Some/None datatype, used for a render target that may not exist yet. */
  datatype Option<+T> = None | Some(value: T)

  /** A width and height in pixels: the screen's, or the render target's. The source
      never rejects a zero extent, so zero is allowed here too. */
  datatype Size = Size(width: nat, height: nat)

  /** The observable effects of the controller on the engine and the GPU.
      - Release(t): the live render target of size t is released;
      - Allocate(t): a new random-write float render target of size t is created;
      - Bind(t): the target of size t is bound as the kernel's output image;
      - Dispatch(x, y, z): the ray-tracing kernel is dispatched over an x-by-y-by-z grid;
      - CreateMaterial: the accumulation blend material is constructed;
      - Blit(t, weight): the target of size t is blended onto the destination
        with `weight` as the blend material's sample parameter. */
  datatype Event =
    | Release(t: Size)
    | Allocate(t: Size)
    | Bind(t: Size)
    | Dispatch(x: nat, y: nat, z: nat)
    | CreateMaterial
    | Blit(source: Size, weight: nat)
}

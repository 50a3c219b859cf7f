/**
 * Shader programs as the contexts see them.  Reading the source files,
 * compiling and linking are done by OpenGL; the model receives their outcome,
 * and for a linked program the list of its active uniforms with their
 * locations, in the order glGetActiveUniformName enumerates them.
 */
module Shaders {

  datatype ActiveUniform = ActiveUniform(name: string, location: int)

  datatype ShaderBuild =
    | Unreadable                              // a shader file cannot be read
    | CompileFailed                           // a stage fails to compile, or the program to link
    | Compiled(active: seq<ActiveUniform>)

  datatype ShaderError = ShaderUnreadable | ShaderCompileFailed

  function BuildError(build: ShaderBuild): ShaderError
    requires !build.Compiled?
  {
    if build.Unreadable? then ShaderUnreadable else ShaderCompileFailed
  }

  /** The table `self.uniforms[name]` filled by the loop over the active uniforms (later names overwrite earlier ones). */
  function UniformTable(active: seq<ActiveUniform>): map<string, int>
    decreases |active|
  {
    if active == [] then map[]
    else UniformTable(active[..|active| - 1])[active[|active| - 1].name := active[|active| - 1].location]
  }

  /** glGetUniformLocation: the location of an active uniform, -1 for any other name. */
  function Location(active: seq<ActiveUniform>, name: string): int {
    var table := UniformTable(active);
    if name in table then table[name] else -1
  }

  /** The names of the active uniforms. */
  function Names(active: seq<ActiveUniform>): set<string> {
    set a | a in active :: a.name
  }

  lemma NamesAppend(a: seq<ActiveUniform>, b: seq<ActiveUniform>)
    ensures Names(a + b) == Names(a) + Names(b)
  {
    assert forall u :: u in a + b <==> u in a || u in b;
  }

  /** The table has one entry per active uniform name and no other. */
  lemma {:induction false} UniformTableKeys(active: seq<ActiveUniform>)
    ensures UniformTable(active).Keys == Names(active)
    decreases |active|
  {
    if active != [] {
      var init := active[..|active| - 1];
      var a := active[|active| - 1];
      UniformTableKeys(init);
      assert active == init + [a];
      NamesAppend(init, [a]);
      assert Names([a]) == {a.name};
    }
  }

  /** Each active uniform name maps to the location reported with its last occurrence. */
  lemma {:induction false} UniformTableLocations(active: seq<ActiveUniform>)
    ensures forall k :: 0 <= k < |active| && active[k].name !in Names(active[k + 1..]) ==>
      active[k].name in UniformTable(active) && UniformTable(active)[active[k].name] == active[k].location
    decreases |active|
  {
    if active != [] {
      var init := active[..|active| - 1];
      var a := active[|active| - 1];
      UniformTableLocations(init);
      forall k | 0 <= k < |active| - 1 && active[k].name !in Names(active[k + 1..])
        ensures active[k].name in UniformTable(active) && UniformTable(active)[active[k].name] == active[k].location
      {
        assert active[k + 1..] == init[k + 1..] + [a];
        NamesAppend(init[k + 1..], [a]);
        assert active[k] == init[k];
      }
    }
  }

  /** glGetUniformLocation on a linked program: -1 for a name no active uniform has, otherwise its reported location. */
  lemma LocationLookup(active: seq<ActiveUniform>, name: string)
    ensures name !in Names(active) ==> Location(active, name) == -1
    ensures forall k :: 0 <= k < |active| && active[k].name == name && name !in Names(active[k + 1..]) ==>
      Location(active, name) == active[k].location
  {
    UniformTableKeys(active);
    UniformTableLocations(active);
  }
}
